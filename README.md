# voteable_mongo: the Voteable mixin, modelled in Dafny

This project models `Mongo::Voteable` (`lib/voteable_mongo/voteable.rb`), the
mixin that makes a document class voteable. It covers four parts:

- the process-wide `VOTEABLE` registry and `ClassMethods#voteable`, which fills it in;
- the read accessors over the embedded `votes` record, together with `DEFAULT_VOTES`;
- `vote_value` and `voted_by?`;
- the instance method `vote`, up to the point where it passes the filled-in
  options hash on to the class-level `vote`.

Files:

- `wrappers.dfy`: `Option` (Ruby's nil, or a missing hash key), `Result` (a
  call that returns or raises) and `Truthy` (Ruby truthiness of a flag that may
  be nil).
- `votes.dfy` (module `Votes`): object ids, the `votes` record, which may be
  absent and whose fields may each be missing; `DefaultVotes`; the id-list and
  counter accessors; `VoteValue` and `VotedBy`.
- `vote_options.dfy` (module `VoteOptions`): the options hash of instance
  `vote`. `Normalize` is the specification. `Vote` is the same code written as
  step-by-step updates of the hash, and it is proved equal to `Normalize`.
- `registry.dfy` (module `VoteableRegistry`): the `VOTEABLE` table as
  `map<string, map<string, Option<Options>>>`. `Apply` is one call of
  `voteable` and `ApplyAll` is a sequence of calls made at class-load time.
  `Registry` is a class whose `Voteable` method updates the table in place.
  It is proved equal to `Apply`.

Modelling decisions:

- Ruby's `h[k] ||= v` assigns only when `h[k]` is nil or false. Line 43
  relies on the false case: `:update_parents => false` becomes true, which
  `Truthy` captures. When `v` is nil, line 37 stores nil under a missing key, so an inner entry of the table is an
  `Option<Options>`. `Option.Or` is Ruby's `||` on such values.
- `voteable` raises in two places. Line 39 raises when `options` is nil for a
  self registration. Line 43 raises when a parent is registered and the
  entity has no self entry. Nothing is rolled back: the table keeps what lines
  36–37 stored. `Declared` carries both the new table and the result. On
  success the result says whether `create_voteable_indexes` is called.
- Classes are identified by name, so `klass == self` becomes
  `related == entity`.
- Instance `vote` also stops half-way when it raises. If neither `:voter_id`
  nor `:voter` is present, line 95 calls `nil.id`. By then the hash already
  holds `:votee_id` and `:votee`. `Raised` carries the hash in that state.
- Outside an unvote, line 100 sets `revote` whenever the voter has any vote,
  whatever the requested value.
- A missing voter makes line 95 call `nil.id`, which raises; there is no
  separate validation step.

## Model

| member | source | states |
|---|---|---|
| `Votes.UpVoterIds` | lib/voteable_mongo/voteable.rb:120-122 | the stored up list when `votes` and its `up` key exist, otherwise `[]` |
| `Votes.DownVoterIds` | lib/voteable_mongo/voteable.rb:125-127 | the stored down list when `votes` and its `down` key exist, otherwise `[]` |
| `Votes.VoterIds` | lib/voteable_mongo/voteable.rb:130-132 | length is the sum of the two lists; the up ids are its prefix and the down ids the rest; membership is membership in either list |
| `Votes.UpVotesCount` | lib/voteable_mongo/voteable.rb:135-137 | the stored `up_count`, or 0 when it or `votes` is missing |
| `Votes.DownVotesCount` | lib/voteable_mongo/voteable.rb:140-142 | the stored `down_count`, or 0 when it or `votes` is missing |
| `Votes.VotesCount` | lib/voteable_mongo/voteable.rb:145-147 | the stored `count`, or 0 when it or `votes` is missing |
| `Votes.VotesPoint` | lib/voteable_mongo/voteable.rb:150-152 | the stored `point`, or 0 when it or `votes` is missing |
| `Votes.VoteValue` | lib/voteable_mongo/voteable.rb:109-113 | up exactly when the id is in the up list, even if it is also in the down list; down exactly when it is only in the down list; none exactly when it is in neither |
| `Votes.VotedBy` | lib/voteable_mongo/voteable.rb:115-117 | true exactly when vote_value is not nil; equivalently, when the id is among voter_ids |
| `Votes.AbsentVotesReadAsDefault` | lib/voteable_mongo/voteable.rb:9-16 | a document with no `votes` reads like one holding DEFAULT_VOTES: every list is `[]` and every counter is 0 |
| `Votes.NoVoteOnDefault` | lib/voteable_mongo/voteable.rb:9-16 | no voter has a vote value on a document with no record or with DEFAULT_VOTES |
| `Votes.VoteValueById` | lib/voteable_mongo/voteable.rb:110 | passing a voter document gives the same vote_value as passing its id |
| `VoteOptions.Normalize` | lib/voteable_mongo/voteable.rb:92-101 | `votee_id` and `votee` are always set; it raises exactly when neither `voter_id` nor `voter` is given; a given `voter_id` is kept, otherwise it is `voter.id`. With unvote: an explicit value is kept, a missing one becomes the voter's current vote_value, and revote is untouched. Without unvote: value is untouched, and revote is true when it already was, otherwise it is whether the voter has voted |
| `VoteOptions.Vote` | lib/voteable_mongo/voteable.rb:92-103 | the field-by-field updates of the options hash end in exactly the state `Normalize` describes, handed off or raised |
| `VoteOptions.NormalizeIdempotent` | lib/voteable_mongo/voteable.rb:93-101 | filling in an already filled-in options hash changes nothing |
| `VoteOptions.UnvoteByNonVoter` | lib/voteable_mongo/voteable.rb:97-98 | an unvote with no value, by a voter who has not voted, reaches the hand-off with no value |
| `VoteableRegistry.Apply` | lib/voteable_mongo/voteable.rb:35-45 | the entity's key exists afterwards. Other entity types and the entity's other relations are unchanged. The entity's inner map gains exactly the related key, a stored nil included. The (entity, related) entry keeps its first non-nil options. A self registration asks for indexes exactly when `options[:index] == true`, raises on nil options and leaves update_parents alone. A parent registration raises exactly when there is no self entry; otherwise it sets update_parents to true on the self entry |
| `VoteableRegistry.ParentEntryIsFirst` | lib/voteable_mongo/voteable.rb:36-37 | after a startup sequence that raises nothing, a relation to another type holds the first non-nil options registered for it |
| `VoteableRegistry.SelfEntryIsFirst` | lib/voteable_mongo/voteable.rb:36-44 | after a startup sequence that raises nothing, the self entry holds the first self options, with update_parents set to true when some parent relation was registered, otherwise as first registered |
| `VoteableRegistry.UndeclaredUnchanged` | lib/voteable_mongo/voteable.rb:36-37 | entity types that no call registers keep their entries |
| `VoteableRegistry.ParentBeforeSelfRaises` | lib/voteable_mongo/voteable.rb:37-43 | registering a parent before the self entry raises, and the parent entry stays stored |
| `VoteableRegistry.SecondRegistrationKeepsFirst` | lib/voteable_mongo/voteable.rb:37-43 | registering the same pair a second time leaves the first options in place, also when the first registration raised at line 43 after storing them |
| `VoteableRegistry.Registry.Voteable` | lib/voteable_mongo/voteable.rb:35-45 | the in-place updates of the table and the result are exactly those of `Apply` |
| `VoteableRegistry.Registry.constructor` | lib/voteable_mongo/voteable.rb:26 | the table starts empty |

## Left out

- `self.class.vote` (line 103) and all counter, point and cascade arithmetic live in `voteable_mongo/voting`. That file is not part of this model. The model stops at the hand-off and says nothing about what happens there.
- `up_voted?`, `down_voted?` and `voted?` (lines 54–81) are left out. So are `up_voters`, `down_voters` and `voters` (lines 155–167). They build database queries through scopes defined in the Mongoid and MongoMapper integrations, which are not part of this model.
- `create_voteable_indexes` (line 40) is a persistence side effect. The model records only whether it is called.
- The `ActiveSupport::Concern` and `included` wiring and the conditional ORM inclusion (lines 7, 18–22) are framework plumbing.
- Concurrency and atomicity of votes belong to the database, not to this code.
- VoteOptions.Vote: returns the updated options as a value. The source updates the caller's hash in place, and other references to that hash would see the change. The model does not capture that aliasing.
- VoteableRegistry.Apply: line 43 mutates the options hash object that was stored, and the caller may still hold it. The model works on values, so that aliasing is not captured.
- Hash values other than those named in the datatypes are not modelled. This covers extra option keys and non-boolean truthy flags. It also covers a `:voter_id` that is not a `BSON::ObjectId`: `vote_value` would call `.id` on it.
- Anonymous classes with a nil `name` are not modelled. Classes are compared by name.
