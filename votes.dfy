/**
 * The embedded `votes` record of a voteable document and the instance
 * methods of Mongo::Voteable that only read it: the id lists, the counters,
 * vote_value and voted_by?.
 */
module Votes {
  import opened Wrappers

  /** A BSON object id; only equality between ids matters here. */
  datatype ObjectId = ObjectId(n: nat)

  /** The two vote values, Ruby's :up and :down. */
  datatype Direction = Up | Down

  /**
   * The `votes` hash stored in a document. Any of its keys may be missing
   * (or hold nil), which is why every field is an Option.
   */
  datatype VoteRecord = VoteRecord(
    up: Option<seq<ObjectId>>,
    down: Option<seq<ObjectId>>,
    upCount: Option<int>,
    downCount: Option<int>,
    count: Option<int>,
    point: Option<int>)

  /** A mapped document: its id and its `votes` field, which may be nil. */
  datatype Document = Document(id: ObjectId, votes: Option<VoteRecord>)

  /** What vote_value accepts: a bare object id, or a document whose id is used. */
  datatype Voter = ById(id: ObjectId) | ByDocument(doc: Document)

  /** DEFAULT_VOTES: empty voter lists and every counter zero. */
  const DefaultVotes := VoteRecord(Some([]), Some([]), Some(0), Some(0), Some(0), Some(0))

  /** up_voter_ids: the stored up list, or [] when it or `votes` is missing. */
  function UpVoterIds(d: Document): (ids: seq<ObjectId>)
    ensures d.votes.Some? && d.votes.value.up.Some? ==> ids == d.votes.value.up.value
    ensures d.votes.None? || d.votes.value.up.None? ==> ids == []
  {
    match d.votes
    case None => []
    case Some(r) => r.up.GetOr([])
  }

  /** down_voter_ids: the stored down list, or [] when it or `votes` is missing. */
  function DownVoterIds(d: Document): (ids: seq<ObjectId>)
    ensures d.votes.Some? && d.votes.value.down.Some? ==> ids == d.votes.value.down.value
    ensures d.votes.None? || d.votes.value.down.None? ==> ids == []
  {
    match d.votes
    case None => []
    case Some(r) => r.down.GetOr([])
  }

  /** voter_ids: the up voters followed by the down voters. */
  function VoterIds(d: Document): (ids: seq<ObjectId>)
    ensures |ids| == |UpVoterIds(d)| + |DownVoterIds(d)|
    ensures ids[..|UpVoterIds(d)|] == UpVoterIds(d)
    ensures ids[|UpVoterIds(d)|..] == DownVoterIds(d)
    ensures forall x :: x in ids <==> x in UpVoterIds(d) || x in DownVoterIds(d)
  {
    UpVoterIds(d) + DownVoterIds(d)
  }

  /** up_votes_count: the stored counter, or 0 when it or `votes` is missing. */
  function UpVotesCount(d: Document): (n: int)
    ensures d.votes.Some? && d.votes.value.upCount.Some? ==> n == d.votes.value.upCount.value
    ensures d.votes.None? || d.votes.value.upCount.None? ==> n == 0
  {
    match d.votes
    case None => 0
    case Some(r) => r.upCount.GetOr(0)
  }

  /** down_votes_count: the stored counter, or 0 when it or `votes` is missing. */
  function DownVotesCount(d: Document): (n: int)
    ensures d.votes.Some? && d.votes.value.downCount.Some? ==> n == d.votes.value.downCount.value
    ensures d.votes.None? || d.votes.value.downCount.None? ==> n == 0
  {
    match d.votes
    case None => 0
    case Some(r) => r.downCount.GetOr(0)
  }

  /** votes_count: the stored total, or 0 when it or `votes` is missing. */
  function VotesCount(d: Document): (n: int)
    ensures d.votes.Some? && d.votes.value.count.Some? ==> n == d.votes.value.count.value
    ensures d.votes.None? || d.votes.value.count.None? ==> n == 0
  {
    match d.votes
    case None => 0
    case Some(r) => r.count.GetOr(0)
  }

  /** votes_point: the stored point, or 0 when it or `votes` is missing. */
  function VotesPoint(d: Document): (n: int)
    ensures d.votes.Some? && d.votes.value.point.Some? ==> n == d.votes.value.point.value
    ensures d.votes.None? || d.votes.value.point.None? ==> n == 0
  {
    match d.votes
    case None => 0
    case Some(r) => r.point.GetOr(0)
  }

  /** The id vote_value looks up: the argument itself, or its `id`. */
  function VoterIdOf(voter: Voter): ObjectId {
    match voter
    case ById(id) => id
    case ByDocument(doc) => doc.id
  }

  /**
   * vote_value: :up when the voter is in the up list (whatever the down list
   * holds), :down when only in the down list, nil otherwise.
   */
  function VoteValue(d: Document, voter: Voter): (v: Option<Direction>)
    ensures v == Some(Up) <==> VoterIdOf(voter) in UpVoterIds(d)
    ensures v == Some(Down) <==> VoterIdOf(voter) !in UpVoterIds(d) && VoterIdOf(voter) in DownVoterIds(d)
    ensures v == None <==> VoterIdOf(voter) !in VoterIds(d)
  {
    var id := VoterIdOf(voter);
    if id in UpVoterIds(d) then Some(Up)
    else if id in DownVoterIds(d) then Some(Down)
    else None
  }

  /** voted_by?: whether vote_value finds a vote, i.e. the voter is in either list. */
  function VotedBy(d: Document, voter: Voter): (b: bool)
    ensures b <==> VoteValue(d, voter).Some?
    ensures b <==> VoterIdOf(voter) in VoterIds(d)
  {
    VoteValue(d, voter) != None
  }

  /** A document without a `votes` record reads exactly like one holding DEFAULT_VOTES. */
  lemma AbsentVotesReadAsDefault(id: ObjectId)
    ensures var absent, zero := Document(id, None), Document(id, Some(DefaultVotes));
      && UpVoterIds(absent) == UpVoterIds(zero) == []
      && DownVoterIds(absent) == DownVoterIds(zero) == []
      && VoterIds(absent) == VoterIds(zero) == []
      && UpVotesCount(absent) == UpVotesCount(zero) == 0
      && DownVotesCount(absent) == DownVotesCount(zero) == 0
      && VotesCount(absent) == VotesCount(zero) == 0
      && VotesPoint(absent) == VotesPoint(zero) == 0
  {
  }

  /** Nobody has voted on a document that holds DEFAULT_VOTES or no record at all. */
  lemma NoVoteOnDefault(id: ObjectId, voter: Voter)
    ensures VoteValue(Document(id, None), voter) == None
    ensures VoteValue(Document(id, Some(DefaultVotes)), voter) == None
    ensures !VotedBy(Document(id, Some(DefaultVotes)), voter)
  {
  }

  /**
   * vote_value depends only on the voter's id: passing the document or its
   * bare id gives the same answer.
   */
  lemma VoteValueById(d: Document, doc: Document)
    ensures VoteValue(d, ByDocument(doc)) == VoteValue(d, ById(doc.id))
  {
  }
}
