/**
 * The instance method `vote` of Mongo::Voteable up to its hand-off to the
 * class-level `vote`: it fills in the options hash with the votee, the voter
 * id and, depending on :unvote, either the vote value or the revote flag.
 */
module VoteOptions {
  import opened Wrappers
  import opened Votes

  /**
   * The keys of the options hash that instance `vote` reads or writes. A
   * missing key and a key holding nil are both None.
   */
  datatype Options = Options(
    voteeId: Option<ObjectId>,
    votee: Option<Document>,
    voterId: Option<ObjectId>,
    voter: Option<Document>,
    value: Option<Direction>,
    revote: Option<bool>,
    unvote: Option<bool>)

  /** Raised when neither :voter_id nor :voter is given (`nil.id`). */
  datatype VoteError = NoVoter

  /**
   * How instance `vote` ends: it reaches the hand-off to the class-level
   * `vote` with the filled-in options, or it raises, leaving the options as
   * far as it got in filling them in.
   */
  datatype Outcome =
    | HandOff(options: Options)
    | Raised(options: Options, error: VoteError)

  /**
   * The options hash as instance `vote` leaves it, and whether it reaches
   * the hand-off.
   */
  function Normalize(votee: Document, o: Options): (n: Outcome)
    // the votee is always recorded, even when the call then raises
    ensures n.options.voteeId == Some(votee.id) && n.options.votee == Some(votee)
    ensures n.options.voter == o.voter && n.options.unvote == o.unvote
    // it raises exactly when no voter can be identified, and then nothing else changes
    ensures n.Raised? <==> o.voterId.None? && o.voter.None?
    ensures n.Raised? ==> n.options == o.(voteeId := Some(votee.id), votee := Some(votee))
    // a caller-supplied voter id is kept, otherwise the voter document's id is used
    ensures n.HandOff? ==> n.options.voterId == Some(if o.voterId.Some? then o.voterId.value else o.voter.value.id)
    // unvote: an explicit value is kept, a missing one becomes the current vote; revote untouched
    ensures n.HandOff? && Truthy(o.unvote) ==>
      && n.options.revote == o.revote
      && (o.value.Some? ==> n.options.value == o.value)
      && (o.value.None? ==> n.options.value == VoteValue(votee, ById(n.options.voterId.value)))
    // no unvote: value untouched; revote stays true, or becomes whether the voter has voted
    ensures n.HandOff? && !Truthy(o.unvote) ==>
      && n.options.value == o.value
      && n.options.revote == Some(Truthy(o.revote) || VotedBy(votee, ById(n.options.voterId.value)))
  {
    var o1 := o.(voteeId := Some(votee.id), votee := Some(votee));
    if o1.voterId.None? && o1.voter.None? then
      Raised(o1, NoVoter)
    else
      var o2 := if o1.voterId.Some? then o1 else o1.(voterId := Some(o1.voter.value.id));
      var voter := ById(o2.voterId.value);
      if Truthy(o2.unvote) then
        HandOff(o2.(value := o2.value.Or(VoteValue(votee, voter))))
      else if Truthy(o2.revote) then
        HandOff(o2)
      else
        HandOff(o2.(revote := Some(VoteValue(votee, voter).Some?)))
  }

  /**
   * Instance `vote` on a votee, as a sequence of updates to the options
   * hash, ending at the point where the filled-in hash is passed on.
   */
  method Vote(votee: Document, options: Options) returns (n: Outcome)
    ensures n == Normalize(votee, options)
  {
    var o := options;
    o := o.(voteeId := Some(votee.id));
    o := o.(votee := Some(votee));
    if o.voterId.None? {
      if o.voter.None? {
        return Raised(o, NoVoter);
      }
      o := o.(voterId := Some(o.voter.value.id));
    }
    var voterId := o.voterId.value;
    if Truthy(o.unvote) {
      if o.value.None? {
        o := o.(value := VoteValue(votee, ById(voterId)));
      }
    } else {
      if !Truthy(o.revote) {
        o := o.(revote := Some(VoteValue(votee, ById(voterId)).Some?));
      }
    }
    n := HandOff(o);
  }

  /** Filling in the options a second time changes nothing. */
  lemma NormalizeIdempotent(votee: Document, o: Options)
    ensures Normalize(votee, Normalize(votee, o).options) == Normalize(votee, o)
  {
  }

  /** An unvote by someone who has not voted hands off no value at all. */
  lemma UnvoteByNonVoter(votee: Document, o: Options, id: ObjectId)
    requires o.voterId == Some(id) && Truthy(o.unvote) && o.value.None?
    requires !VotedBy(votee, ById(id))
    ensures Normalize(votee, o).HandOff?
    ensures Normalize(votee, o).options.value == None
  {
  }
}
