/** The connection session hook (`useDatabaseConnection`): five state cells and
    the operations that update them.

    `connect` and `disconnect` are asynchronous. Each is split at its `await`:
    a Begin step runs up to the backend call and says whether a call was issued
    (and with what argument), and a Complete step runs the rest, with the
    call's outcome, including the `finally` clause. The code after the `await`
    reads none of the cells, so a Complete step is faithful whatever happened
    in between. `Connect` and `Disconnect` run both halves back to back. */
module Connection {
  import opened Base
  import opened Text

  const RequiredMessage := "Connection string is required"
  const ConnectFallback := "Failed to connect to database"
  const DisconnectFallback := "Failed to disconnect from database"

  /** How the synchronous part of an operation ended: it returned at once with
      `result`, or it is awaiting the backend call made with `argument`. */
  datatype Begin = Returned(result: bool) | Calling(argument: string)

  class ConnectionHook {
    var connectionString: string
    var connectionId: Option<string>
    var isConnected: bool
    var isLoading: bool
    var error: Option<string>

    /** The session invariant: a connected session has a usable id. */
    ghost predicate Consistent()
      reads this
    {
      isConnected ==> IsPresent(connectionId)
    }

    /** The converse pairing: an id is held only by a connected session. The
        id and the flag are set together on a successful call and cleared
        together on disconnect or reset, and a failed call touches neither. */
    ghost predicate Paired()
      reads this
    {
      connectionId.Some? ==> isConnected
    }

    constructor (initialConnectionString: string)
      ensures connectionString == initialConnectionString
      ensures connectionId == None && !isConnected && !isLoading && error == None
      ensures Consistent() && Paired()
    {
      connectionString := initialConnectionString;
      connectionId := None;
      isConnected := false;
      isLoading := false;
      error := None;
    }

    /** `connect` up to its `await`. It returns `false` at once while another
        operation is loading, and with a validation error for a blank string;
        otherwise it marks loading, clears the error and calls the backend
        with the raw connection string. It never looks at `isConnected`. */
    method BeginConnect() returns (r: Begin)
      modifies this
      ensures connectionString == old(connectionString) && connectionId == old(connectionId)
      ensures isConnected == old(isConnected)
      ensures old(isLoading) ==> r == Returned(false) && isLoading && error == old(error)
      ensures !old(isLoading) && IsBlank(connectionString) ==>
        r == Returned(false) && !isLoading && error == Some(RequiredMessage)
      ensures !old(isLoading) && !IsBlank(connectionString) ==>
        r == Calling(connectionString) && isLoading && error == None
      ensures old(Paired()) ==> Paired()
    {
      if isLoading {
        return Returned(false);
      }
      if IsBlank(connectionString) {
        error := Some(RequiredMessage);
        return Returned(false);
      }
      isLoading := true;
      error := None;
      r := Calling(connectionString);
    }

    /** `connect` after its `await`, given what the backend call settled to:
        the id the backend returned (possibly `null`), or an error. */
    method CompleteConnect(outcome: Outcome<Option<string>>) returns (ok: bool)
      modifies this
      ensures ok <==> outcome.Ok?
      ensures !isLoading
      ensures connectionString == old(connectionString)
      ensures outcome.Ok? ==> connectionId == outcome.payload && isConnected && error == old(error)
      ensures outcome.Err? ==>
        connectionId == old(connectionId) && isConnected == old(isConnected) &&
        error == Some(ErrorText(outcome.message, ConnectFallback))
      ensures old(Consistent()) && (outcome.Ok? ==> IsPresent(outcome.payload)) ==> Consistent()
      ensures old(Paired()) ==> Paired()
    {
      match outcome {
        case Ok(id) =>
          connectionId := id;
          isConnected := true;
          ok := true;
        case Err(message) =>
          error := Some(ErrorText(message, ConnectFallback));
          ok := false;
      }
      isLoading := false;
    }

    /** The whole of `connect` when nothing else runs while it awaits; `reply`
        is what the backend answers if it is asked. */
    method Connect(reply: Outcome<Option<string>>) returns (ok: bool)
      modifies this
      ensures connectionString == old(connectionString)
      ensures old(isLoading) ==>
        !ok && isLoading && error == old(error) && connectionId == old(connectionId) && isConnected == old(isConnected)
      ensures !old(isLoading) ==> !isLoading
      ensures !old(isLoading) && IsBlank(connectionString) ==>
        !ok && error == Some(RequiredMessage) && connectionId == old(connectionId) && isConnected == old(isConnected)
      ensures !old(isLoading) && !IsBlank(connectionString) ==> (ok <==> reply.Ok?)
      ensures !old(isLoading) && !IsBlank(connectionString) && reply.Ok? ==>
        connectionId == reply.payload && isConnected && error == None
      ensures !old(isLoading) && !IsBlank(connectionString) && reply.Err? ==>
        connectionId == old(connectionId) && isConnected == old(isConnected) &&
        error == Some(ErrorText(reply.message, ConnectFallback))
      ensures old(Consistent()) && (reply.Ok? ==> IsPresent(reply.payload)) ==> Consistent()
      ensures old(Paired()) ==> Paired()
    {
      var begin := BeginConnect();
      if begin.Calling? {
        ok := CompleteConnect(reply);
      } else {
        ok := begin.result;
      }
    }

    /** `disconnect` up to its `await`. Without a truthy id or without a
        connected session it returns `true` at once and changes nothing;
        otherwise it marks loading, clears the error and asks the backend to
        drop the session. It does not look at `isLoading`. */
    method BeginDisconnect() returns (r: Begin)
      modifies this
      ensures connectionString == old(connectionString) && connectionId == old(connectionId)
      ensures isConnected == old(isConnected)
      ensures !IsPresent(old(connectionId)) || !old(isConnected) ==>
        r == Returned(true) && isLoading == old(isLoading) && error == old(error)
      ensures IsPresent(old(connectionId)) && old(isConnected) ==>
        r == Calling(old(connectionId).value) && isLoading && error == None
      ensures old(Paired()) ==> Paired()
    {
      if !IsPresent(connectionId) || !isConnected {
        return Returned(true);
      }
      isLoading := true;
      error := None;
      r := Calling(connectionId.value);
    }

    /** `disconnect` after its `await`. Success forgets the session; failure
        keeps both the id and the connected flag and records the error. */
    method CompleteDisconnect(outcome: Outcome<()>) returns (ok: bool)
      modifies this
      ensures ok <==> outcome.Ok?
      ensures !isLoading
      ensures connectionString == old(connectionString)
      ensures outcome.Ok? ==> connectionId == None && !isConnected && error == old(error)
      ensures outcome.Err? ==>
        connectionId == old(connectionId) && isConnected == old(isConnected) &&
        error == Some(ErrorText(outcome.message, DisconnectFallback))
      ensures old(Consistent()) ==> Consistent()
      ensures old(Paired()) ==> Paired()
    {
      match outcome {
        case Ok(_) =>
          connectionId := None;
          isConnected := false;
          ok := true;
        case Err(message) =>
          error := Some(ErrorText(message, DisconnectFallback));
          ok := false;
      }
      isLoading := false;
    }

    /** The whole of `disconnect` when nothing else runs while it awaits. */
    method Disconnect(reply: Outcome<()>) returns (ok: bool)
      modifies this
      ensures connectionString == old(connectionString)
      ensures !IsPresent(old(connectionId)) || !old(isConnected) ==>
        ok && connectionId == old(connectionId) && isConnected == old(isConnected) &&
        isLoading == old(isLoading) && error == old(error)
      ensures IsPresent(old(connectionId)) && old(isConnected) ==> !isLoading && (ok <==> reply.Ok?)
      ensures IsPresent(old(connectionId)) && old(isConnected) && reply.Ok? ==>
        connectionId == None && !isConnected && error == None
      ensures IsPresent(old(connectionId)) && old(isConnected) && reply.Err? ==>
        connectionId == old(connectionId) && isConnected &&
        error == Some(ErrorText(reply.message, DisconnectFallback))
      ensures old(Consistent()) ==> Consistent()
      ensures old(Paired()) ==> Paired()
    {
      var begin := BeginDisconnect();
      if begin.Calling? {
        ok := CompleteDisconnect(reply);
      } else {
        ok := begin.result;
      }
    }

    /** `updateConnectionString`: replaces the string and nothing else. */
    method UpdateConnectionString(newConnectionString: string)
      modifies this
      ensures connectionString == newConnectionString
      ensures connectionId == old(connectionId) && isConnected == old(isConnected)
      ensures isLoading == old(isLoading) && error == old(error)
      ensures old(Paired()) ==> Paired()
    {
      connectionString := newConnectionString;
    }

    /** `reset`: forgets the session and the error without a backend call;
        the string and the loading flag stay as they are. */
    method Reset()
      modifies this
      ensures connectionId == None && !isConnected && error == None
      ensures connectionString == old(connectionString) && isLoading == old(isLoading)
      ensures Consistent() && Paired()
    {
      connectionId := None;
      isConnected := false;
      error := None;
    }
  }

  /** Together the two invariants make the connected flag and a usable id
      equivalent: a session is connected exactly when it holds a truthy id. */
  lemma ConnectedIffUsableId(hook: ConnectionHook)
    requires hook.Consistent() && hook.Paired()
    ensures hook.isConnected <==> IsPresent(hook.connectionId)
    ensures hook.isConnected <==> hook.connectionId.Some?
  {
  }
}
