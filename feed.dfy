/** The polling pattern the five feed hooks repeat (stats, issues, jobs, logs,
    performance), written once as a generic class.

    A fetch is split at its `await` like the connection operations: BeginFetch
    runs the guard, sets loading, clears the error and issues the request;
    CompleteFetch stores the outcome and clears loading, as the `finally`
    clause does. The completion reads no state, so responses that arrive
    late or out of order are modelled by calling CompleteFetch in the order
    they arrive: the last one wins, as in the source.

    The `useEffect` that starts polling is OnConnectionIdChange. The interval
    it installs is the `timer` field, which holds the id the interval was set
    up under. Tick is one firing of that interval. */
module Poller {
  import opened Base

  /** Which feed a request is for; the performance feed also sends how many
      hours of history it wants. */
  datatype FeedKind = Status | Issues | Jobs | Logs | Performance(hours: nat)

  /** One backend request issued by a feed. */
  datatype Request = Fetch(kind: FeedKind, connectionId: string)

  /** The requests issued under `connectionId` by feeds of the given kinds,
      one per kind in that order, when the id is truthy, and none otherwise. */
  function Requests(kinds: seq<FeedKind>, connectionId: Option<string>): (r: seq<Request>)
    ensures IsPresent(connectionId) ==> |r| == |kinds|
    ensures IsPresent(connectionId) ==>
      forall i :: 0 <= i < |kinds| ==> r[i] == Fetch(kinds[i], connectionId.value)
    ensures !IsPresent(connectionId) ==> r == []
  {
    if !IsPresent(connectionId) || kinds == [] then []
    else [Fetch(kinds[0], connectionId.value)] + Requests(kinds[1..], connectionId)
  }

  /** The request a fetch of the given kind issues under `connectionId`: one
      for a truthy id, none otherwise. */
  function Started(kind: FeedKind, connectionId: Option<string>): (r: Option<Request>)
    ensures r.Some? <==> IsPresent(connectionId)
    ensures r.Some? ==> r.value == Fetch(kind, connectionId.value)
  {
    if IsPresent(connectionId) then Some(Fetch(kind, connectionId.value)) else None
  }

  /** The requests actually issued, in order. */
  function Issued(rs: seq<Option<Request>>): (r: seq<Request>)
    ensures |r| <= |rs|
  {
    if rs == [] then []
    else (if rs[0].Some? then [rs[0].value] else []) + Issued(rs[1..])
  }

  /** Fetches started one per kind under the same id issue exactly the
      requests that id asks of those kinds. */
  lemma {:induction false} IssuedInOrder(rs: seq<Option<Request>>, kinds: seq<FeedKind>, id: Option<string>)
    requires |rs| == |kinds|
    requires forall i :: 0 <= i < |rs| ==> rs[i] == Started(kinds[i], id)
    ensures Issued(rs) == Requests(kinds, id)
  {
    if rs != [] {
      IssuedInOrder(rs[1..], kinds[1..], id);
    }
  }

  class Feed<T> {
    const kind: FeedKind
    /** The message used when a failed fetch carries none. */
    const fallback: string
    var data: T
    var isLoading: bool
    var error: Option<string>
    /** When the last successful fetch completed. */
    var lastUpdated: Option<nat>
    /** The id of the running polling interval, or `None` when none runs. */
    var timer: Option<string>

    constructor (kind: FeedKind, initial: T, fallback: string)
      ensures this.kind == kind && this.fallback == fallback
      ensures data == initial && !isLoading && error == None
      ensures lastUpdated == None && timer == None
    {
      this.kind := kind;
      this.fallback := fallback;
      data := initial;
      isLoading := false;
      error := None;
      lastUpdated := None;
      timer := None;
    }

    /** What BeginFetch does to the state for `connectionId`: with a truthy id
        loading is set and the error cleared, without one nothing changes;
        the data and its timestamp are left alone either way. */
    twostate predicate Began(connectionId: Option<string>)
      reads this
    {
      && (IsPresent(connectionId) ==> isLoading && error == None)
      && (!IsPresent(connectionId) ==> isLoading == old(isLoading) && error == old(error))
      && data == old(data) && lastUpdated == old(lastUpdated)
    }

    /** The fetch up to its `await`: a no-op without a truthy id, otherwise
        the request for `connectionId` (and, for performance, its hours). */
    method BeginFetch(connectionId: Option<string>) returns (request: Option<Request>)
      modifies this
      ensures request == Started(kind, connectionId)
      ensures timer == old(timer)
      ensures Began(connectionId)
    {
      if !IsPresent(connectionId) {
        return None;
      }
      isLoading := true;
      error := None;
      request := Some(Fetch(kind, connectionId.value));
    }

    /** The fetch after its `await`, completing at time `now`. Success
        replaces the data wholesale and stamps it; failure keeps the data
        and records the error message or the feed's fallback. */
    method CompleteFetch(outcome: Outcome<T>, now: nat)
      modifies this
      ensures !isLoading && timer == old(timer)
      ensures outcome.Ok? ==>
        data == outcome.payload && lastUpdated == Some(now) && error == old(error)
      ensures outcome.Err? ==>
        data == old(data) && lastUpdated == old(lastUpdated) &&
        error == Some(ErrorText(outcome.message, fallback))
    {
      match outcome {
        case Ok(payload) =>
          data := payload;
          lastUpdated := Some(now);
        case Err(message) =>
          error := Some(ErrorText(message, fallback));
      }
      isLoading := false;
    }

    /** The whole fetch (exposed as the feed's `refresh…` function) when
        nothing else runs while it awaits. */
    method Refresh(connectionId: Option<string>, reply: Outcome<T>, now: nat) returns (request: Option<Request>)
      modifies this
      ensures timer == old(timer)
      ensures !IsPresent(connectionId) ==>
        request == None && data == old(data) && isLoading == old(isLoading) &&
        error == old(error) && lastUpdated == old(lastUpdated)
      ensures IsPresent(connectionId) ==> request == Some(Fetch(kind, connectionId.value)) && !isLoading
      ensures IsPresent(connectionId) && reply.Ok? ==>
        data == reply.payload && lastUpdated == Some(now) && error == None
      ensures IsPresent(connectionId) && reply.Err? ==>
        data == old(data) && lastUpdated == old(lastUpdated) &&
        error == Some(ErrorText(reply.message, fallback))
    {
      request := BeginFetch(connectionId);
      if request.Some? {
        CompleteFetch(reply, now);
      }
    }

    /** The polling effect, run when the connection id changes: the old
        interval is cleared; with a truthy id one fetch is issued at once and
        a new interval is set up under that id. Nothing is cleared. */
    method OnConnectionIdChange(connectionId: Option<string>) returns (request: Option<Request>)
      modifies this
      ensures timer == ActiveId(connectionId)
      ensures request == Started(kind, connectionId)
      ensures Began(connectionId)
    {
      timer := None;
      request := BeginFetch(connectionId);
      timer := ActiveId(connectionId);
    }

    /** One firing of the polling interval: a fetch under the interval's id,
        and nothing when no interval runs. */
    method Tick() returns (request: Option<Request>)
      modifies this
      ensures timer == old(timer)
      ensures request == Started(kind, timer)
      ensures Began(timer)
    {
      request := BeginFetch(timer);
    }
  }
}
