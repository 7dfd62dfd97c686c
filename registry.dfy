/**
 * The process-wide VOTEABLE table and ClassMethods#voteable, which fills it
 * in: entity-type name -> related-type name -> the options of that
 * registration (point values, :update_counters, :update_parents, :index).
 */
module VoteableRegistry {
  import opened Wrappers

  /** The registration options hash; every key may be missing or nil. */
  datatype Options = Options(
    up: Option<int>,
    down: Option<int>,
    updateCounters: Option<bool>,
    updateParents: Option<bool>,
    index: Option<bool>)

  /**
   * VOTEABLE. An inner entry may hold nil: `h[k] ||= nil` stores nil under a
   * missing key.
   */
  type Table = map<string, map<string, Option<Options>>>

  /**
   * One call `voteable(klass, options)` made on the entity class named
   * `entity`, with `related` the name of `klass` (equal to `entity` for
   * `voteable self, ...`). Classes are identified by their names.
   */
  datatype Declaration = Declaration(entity: string, related: string, options: Option<Options>)

  /**
   * The exceptions `voteable` can raise: `options[:index]` on nil options
   * (line 39), and `[:update_parents]` on a missing self entry (line 43).
   */
  datatype RegistryError = NilOptions | NoSelfEntry

  /**
   * The table after one call, and its result: on success, whether the call
   * asked for the voter-id indexes to be created; on failure, the exception.
   * A failing call keeps the updates it made before raising.
   */
  datatype Declared = Declared(table: Table, result: Result<bool, RegistryError>)

  /** `VOTEABLE[e][k]`, nil when either key is missing. */
  function Stored(t: Table, e: string, k: string): Option<Options> {
    if e in t && k in t[e] then t[e][k] else None
  }

  /** `VOTEABLE[e] ||= {}` followed by `VOTEABLE[e][k] ||= options`. */
  function StoreFirst(t: Table, e: string, k: string, options: Option<Options>): Table {
    var inner := if e in t then t[e] else map[];
    if k in inner && inner[k].Some? then t[e := inner] else t[e := inner[k := options]]
  }

  /** `VOTEABLE[e][e][:update_parents] ||= true`. */
  function MarkUpdateParents(t: Table, e: string): Declared {
    if Stored(t, e, e).None? then
      Declared(t, Failure(NoSelfEntry))
    else
      var self := t[e][e].value;
      if Truthy(self.updateParents) then Declared(t, Success(false))
      else Declared(t[e := t[e][e := Some(self.(updateParents := Some(true)))]], Success(false))
  }

  /** ClassMethods#voteable applied to the table `t`. */
  function Apply(t: Table, c: Declaration): (d: Declared)
    ensures d.table.Keys == t.Keys + {c.entity}
    // the entity's inner map gains exactly the related key, even when it stores nil there
    ensures d.table[c.entity].Keys == (if c.entity in t then t[c.entity].Keys else {}) + {c.related}
    // other entity types keep their entries
    ensures forall e :: e in t && e != c.entity ==> d.table[e] == t[e]
    ensures forall e, k :: e != c.entity ==> Stored(d.table, e, k) == Stored(t, e, k)
    // the entity's other relations keep their entries
    ensures forall k :: k != c.related && k != c.entity ==> Stored(d.table, c.entity, k) == Stored(t, c.entity, k)
    // first options win: an entry already set stays, otherwise it becomes `options`
    // (for a self registration this entry is the self entry: update_parents is left alone)
    ensures Stored(d.table, c.entity, c.related) == Stored(t, c.entity, c.related).Or(c.options)
    // self registration: asks for indexes exactly when options[:index] == true, and raises on nil options
    ensures c.related == c.entity ==>
      d.result == if c.options.None? then Failure(NilOptions) else Success(c.options.value.index == Some(true))
    // registration of a parent: sets update_parents on the self entry, raising when there is none
    ensures c.related != c.entity ==>
      && (d.result.Failure? <==> Stored(t, c.entity, c.entity).None?)
      && (d.result.Failure? ==> d.result.error == NoSelfEntry && Stored(d.table, c.entity, c.entity) == None)
      && (d.result.Success? ==>
            && d.result == Success(false)
            && Stored(d.table, c.entity, c.entity)
               == Some(Stored(t, c.entity, c.entity).value.(updateParents := Some(true))))
  {
    var s := StoreFirst(t, c.entity, c.related, c.options);
    if c.related == c.entity then
      if c.options.None? then Declared(s, Failure(NilOptions))
      else Declared(s, Success(c.options.value.index == Some(true)))
    else
      MarkUpdateParents(s, c.entity)
  }

  /**
   * The table after a sequence of registrations, as made at class-load
   * time; the first call that raises stops the sequence.
   */
  datatype Loaded = Loaded(table: Table, failure: Option<RegistryError>)

  function ApplyAll(t: Table, cs: seq<Declaration>): Loaded
    decreases |cs|
  {
    if cs == [] then Loaded(t, None)
    else
      var d := Apply(t, cs[0]);
      if d.result.Failure? then Loaded(d.table, Some(d.result.error))
      else ApplyAll(d.table, cs[1..])
  }

  /** The first non-nil options among the calls registering `related` for `entity`. */
  function FirstOptions(cs: seq<Declaration>, entity: string, related: string): Option<Options>
    decreases |cs|
  {
    if cs == [] then None
    else
      var here := if cs[0].entity == entity && cs[0].related == related then cs[0].options else None;
      here.Or(FirstOptions(cs[1..], entity, related))
  }

  /** Whether some call registers a related type other than `entity` itself for `entity`. */
  function DeclaresParent(cs: seq<Declaration>, entity: string): bool
    decreases |cs|
  {
    cs != [] && ((cs[0].entity == entity && cs[0].related != entity) || DeclaresParent(cs[1..], entity))
  }

  /** `o` with update_parents set, when `mark` holds and there is an entry. */
  function Marked(o: Option<Options>, mark: bool): Option<Options> {
    if mark && o.Some? then Some(o.value.(updateParents := Some(true))) else o
  }

  /**
   * Over a sequence of registrations that raises nothing, a relation to
   * another type keeps the first options registered for it.
   */
  lemma {:induction false} ParentEntryIsFirst(t: Table, cs: seq<Declaration>, e: string, k: string)
    requires k != e
    requires ApplyAll(t, cs).failure.None?
    ensures Stored(ApplyAll(t, cs).table, e, k) == Stored(t, e, k).Or(FirstOptions(cs, e, k))
    decreases |cs|
  {
    if cs != [] {
      var d := Apply(t, cs[0]);
      ParentEntryIsFirst(d.table, cs[1..], e, k);
    }
  }

  /**
   * Over a sequence of registrations that raises nothing, the self entry
   * holds the first self options, with update_parents set to true when some
   * relation to another type was registered for the entity, and otherwise
   * as first registered.
   */
  lemma {:induction false} SelfEntryIsFirst(t: Table, cs: seq<Declaration>, e: string)
    requires ApplyAll(t, cs).failure.None?
    ensures Stored(ApplyAll(t, cs).table, e, e)
            == Marked(Stored(t, e, e).Or(FirstOptions(cs, e, e)), DeclaresParent(cs, e))
    decreases |cs|
  {
    if cs != [] {
      var d := Apply(t, cs[0]);
      SelfEntryIsFirst(d.table, cs[1..], e);
    }
  }

  /** Entity types that no call registers keep their entries. */
  lemma {:induction false} UndeclaredUnchanged(t: Table, cs: seq<Declaration>, e: string)
    requires forall i :: 0 <= i < |cs| ==> cs[i].entity != e
    ensures e in ApplyAll(t, cs).table <==> e in t
    ensures e in t ==> ApplyAll(t, cs).table[e] == t[e]
    decreases |cs|
  {
    if cs != [] {
      var d := Apply(t, cs[0]);
      if d.result.Success? {
        UndeclaredUnchanged(d.table, cs[1..], e);
      }
    }
  }

  /**
   * Registering a relation to another type before the entity has
   * registered itself raises, leaving the new relation stored.
   */
  lemma ParentBeforeSelfRaises(t: Table, e: string, k: string, options: Options)
    requires k != e && Stored(t, e, e).None? && Stored(t, e, k).None?
    ensures Apply(t, Declaration(e, k, Some(options))) ==
      Declared(StoreFirst(t, e, k, Some(options)), Failure(NoSelfEntry))
    ensures Stored(Apply(t, Declaration(e, k, Some(options))).table, e, k) == Some(options)
  {
  }

  /**
   * Registering the same pair again keeps the options of the first
   * registration, even when that one raised at line 43 after storing them.
   */
  lemma SecondRegistrationKeepsFirst(t: Table, c1: Declaration, c2: Declaration)
    requires c1.entity == c2.entity && c1.related == c2.related && c1.options.Some?
    ensures var d1 := Apply(t, c1); var d2 := Apply(d1.table, c2);
      Stored(d2.table, c1.entity, c1.related) == Stored(d1.table, c1.entity, c1.related)
  {
  }

  /** VOTEABLE, as a table that ClassMethods#voteable updates in place. */
  class Registry {
    var table: Table

    constructor ()
      ensures table == map[]
    {
      table := map[];
    }

    /**
     * `voteable(klass, options)` called on the class named `name`, with
     * `klass` named `related`. On success, returns whether
     * create_voteable_indexes is called.
     */
    method Voteable(name: string, related: string, options: Option<Options>) returns (r: Result<bool, RegistryError>)
      modifies this
      ensures Declared(table, r) == Apply(old(table), Declaration(name, related, options))
    {
      if name !in table {
        table := table[name := map[]];
      }
      if !(related in table[name] && table[name][related].Some?) {
        table := table[name := table[name][related := options]];
      }
      if related == name {
        if options.None? {
          return Failure(NilOptions);
        }
        r := Success(options.value.index == Some(true));
      } else {
        if !(name in table[name] && table[name][name].Some?) {
          return Failure(NoSelfEntry);
        }
        var self := table[name][name].value;
        if !Truthy(self.updateParents) {
          table := table[name := table[name][name := Some(self.(updateParents := Some(true)))]];
        }
        r := Success(false);
      }
    }
  }
}
