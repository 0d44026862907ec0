/**
 * The secrets backend as the client sees it through Spring's `VaultTemplate`:
 * a store from path strings to raw response documents, whose read, write and
 * delete requests may be refused (transport or authentication failure, or a
 * policy that denies the path).
 */
module Vault {
  import opened Wrappers
  import opened SecretValues

  /** A `VaultResponse`; `data == None` is a response whose `getData()` is null. */
  datatype Response = Response(data: Option<JavaMap>)

  /** Why the backend refused a request. */
  datatype BackendError = Unreachable | PermissionDenied(path: string)

  class VaultTemplate {
    /** What a read of each stored path answers; a path not in the map reads as null. */
    var responses: map<string, Response>
    /** Whether the transport and the authentication currently work. */
    var reachable: bool
    /** Paths the client's policy does not let it touch. */
    var denied: set<string>

    constructor (responses: map<string, Response>, reachable: bool, denied: set<string>)
      ensures this.responses == responses && this.reachable == reachable && this.denied == denied
    {
      this.responses := responses;
      this.reachable := reachable;
      this.denied := denied;
    }

    /** The reason a request on `path` is refused, if it is. */
    function Refusal(path: string): Option<BackendError>
      reads this`reachable, this`denied
    {
      if !reachable then Some(Unreachable)
      else if path in denied then Some(PermissionDenied(path))
      else None
    }

    predicate Accepts(path: string)
      reads this`reachable, this`denied
    {
      Refusal(path).None?
    }

    /** What a successful read of `path` answers: the stored response, or null. */
    function Lookup(path: string): Option<Response>
      reads this`responses
    {
      if path in responses then Some(responses[path]) else None
    }

    /** `read(path)`: the stored response, null when nothing is stored, or a failure. */
    method Read(path: string) returns (r: Result<Option<Response>, BackendError>)
      ensures r.Failure? <==> !Accepts(path)
      ensures r.Failure? ==> r.error == Refusal(path).value
      ensures r.Success? ==> r.value == Lookup(path)
    {
      var refusal := Refusal(path);
      if refusal.Some? {
        return Failure(refusal.value);
      }
      r := Success(Lookup(path));
    }

    /** `write(path, body)`: stores `body` as what `path` reads, or fails and changes nothing. */
    method Write(path: string, body: JavaMap) returns (r: Outcome<BackendError>)
      modifies this`responses
      ensures r.Fail? <==> !Accepts(path)
      ensures r.Fail? ==> r.error == Refusal(path).value && responses == old(responses)
      ensures r.Pass? ==> responses == old(responses)[path := Response(Some(body))]
    {
      var refusal := Refusal(path);
      if refusal.Some? {
        return Fail(refusal.value);
      }
      responses := responses[path := Response(Some(body))];
      r := Pass;
    }

    /** `delete(path)`: forgets `path`, whether or not anything was stored there, or fails. */
    method Delete(path: string) returns (r: Outcome<BackendError>)
      modifies this`responses
      ensures r.Fail? <==> !Accepts(path)
      ensures r.Fail? ==> r.error == Refusal(path).value && responses == old(responses)
      ensures r.Pass? ==> responses == old(responses) - {path}
    {
      var refusal := Refusal(path);
      if refusal.Some? {
        return Fail(refusal.value);
      }
      responses := responses - {path};
      r := Pass;
    }
  }
}
