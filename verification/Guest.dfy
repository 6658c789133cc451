/** The guest agent's identity: who it believes it is and which token it obeys. */
module GuestAgent {
  import opened Core

  /** What `init` and `rekey` leave in the guest: a name and the digest of the one token it accepts. */
  datatype Guest<I, T> = Blank | Keyed(id: I, key: Digest<T>)

  predicate Authenticates<I, T(==)>(guest: Guest<I, T>, token: T) {
    guest.Keyed? && guest.key == Sha256(token)
  }

  /** `init`: the first call fixes the identity, a replay with the same identity is accepted, any
      other identity is refused. */
  function AcceptInit<I(==), T(==)>(guest: Guest<I, T>, id: I, token: T): Option<Guest<I, T>> {
    if guest.Blank? || guest == Keyed(id, Sha256(token)) then Some(Keyed(id, Sha256(token))) else None
  }

  /** `rekey`: only the holder of the current token may replace name and token. */
  function AcceptRekey<I, T(==)>(guest: Guest<I, T>, current: T, id: I, token: T): Option<Guest<I, T>> {
    if Authenticates(guest, current) then Some(Keyed(id, Sha256(token))) else None
  }
}

/** The agent's own bookkeeping behind that identity. */
module GuestServer {
  import opened Core
  import opened GuestAgent

  datatype InitState = InitState(
    sandboxId: string, tokenDigest: Digest<string>, uid: nat, gid: nat, maxFileBytes: nat, cgroup: bool)

  datatype KeyRequest = KeyRequest(
    sandboxId: string, token: string, uid: nat, gid: nat, maxFileBytes: nat, maxProcesses: nat)

  datatype Status = FailedPrecondition | Unauthenticated | InvalidArgument | Internal

  predicate WellFormed(request: KeyRequest) {
    && request.sandboxId != "" && |request.token| >= 32 && request.uid != 0
    && request.maxFileBytes != 0 && request.maxProcesses != 0
  }

  function StateOf(request: KeyRequest, cgroup: bool): InitState {
    InitState(request.sandboxId, Sha256(request.token), request.uid, request.gid, request.maxFileBytes, cgroup)
  }

  /** The fields a replayed `init` has to repeat. */
  predicate SameIdentity(a: InitState, b: InitState) {
    a.sandboxId == b.sandboxId && a.tokenDigest == b.tokenDigest && a.uid == b.uid && a.gid == b.gid
  }

  function Face(state: Option<InitState>): Guest<string, string> {
    if state.None? then Blank else Keyed(state.value.sandboxId, state.value.tokenDigest)
  }

  class GuestService {
    var initialization: Option<InitState>

    constructor ()
      ensures initialization == None
    {
      initialization := None;
    }

    method Authorized(auth: Option<string>) returns (r: Result<InitState, Status>)
      ensures r.Ok? <==> auth.Some? && Authenticates(Face(initialization), auth.value)
      ensures r.Ok? ==> initialization == Some(r.value)
      ensures r.Err? ==> r.error == (if initialization.None? then FailedPrecondition else Unauthenticated)
    {
      if initialization.None? {
        return Err(FailedPrecondition);
      }
      if auth.None? || initialization.value.tokenDigest != Sha256(auth.value) {
        return Err(Unauthenticated);
      }
      return Ok(initialization.value);
    }

    /** `pids` is what configuring the process limit gives, `network` whether the guest network could be set up. */
    method Init(request: KeyRequest, pids: Option<bool>, network: bool) returns (r: Result<bool, Status>)
      modifies this
      ensures r.Ok? <==> WellFormed(request) && pids.Some?
                         && (if old(initialization).None? then network
                             else SameIdentity(old(initialization).value, StateOf(request, pids.value)))
      ensures r.Ok? ==> AcceptInit(old(Face(initialization)), request.sandboxId, request.token) == Some(Face(initialization))
      ensures r.Ok? ==> (r.value <==> old(initialization).Some?)
      ensures r.Ok? && !r.value ==> initialization == Some(StateOf(request, pids.value))
      ensures r.Err? || r.value ==> initialization == old(initialization)
    {
      if !WellFormed(request) {
        return Err(InvalidArgument);
      }
      if pids.None? {
        return Err(Internal);
      }
      var candidate := StateOf(request, pids.value);
      if initialization.Some? {
        if SameIdentity(initialization.value, candidate) {
          return Ok(true);
        }
        return Err(FailedPrecondition);
      }
      if !network {
        return Err(Internal);
      }
      initialization := Some(candidate);
      return Ok(false);
    }

    /** The lock is released between the check of the token and the final write; `meanwhile` is what another
        call left in between, if any. The check is not repeated, so the last of two racing calls wins. */
    method Rekey(auth: Option<string>, request: KeyRequest, meanwhile: Option<InitState>,
                 flush: bool, network: bool, pids: Option<bool>)
      returns (r: Result<(), Status>)
      modifies this
      ensures r.Ok? <==> auth.Some? && Authenticates(old(Face(initialization)), auth.value)
                         && WellFormed(request) && flush && network && pids.Some?
      ensures r.Ok? ==> AcceptRekey(old(Face(initialization)), auth.value, request.sandboxId, request.token)
                        == Some(Face(initialization))
      ensures r.Ok? ==> initialization == Some(StateOf(request, pids.value))
      ensures r.Err? ==> initialization == old(initialization) || (meanwhile.Some? && initialization == meanwhile)
    {
      var current := Authorized(auth);
      if current.Err? {
        return Err(current.error);
      }
      if !WellFormed(request) {
        return Err(InvalidArgument);
      }
      if meanwhile.Some? {
        initialization := meanwhile;
      }
      if !flush || !network || pids.None? {
        return Err(Internal);
      }
      initialization := Some(StateOf(request, pids.value));
      return Ok(());
    }
  }

  /** A rotation locks the previous credential out and lets exactly the new one in. */
  lemma RekeyRotates<I, T>(guest: Guest<I, T>, current: T, id: I, token: T, other: T)
    requires AcceptRekey(guest, current, id, token).Some?
    ensures Authenticates(AcceptRekey(guest, current, id, token).value, other) <==> other == token
  {
    var rotated := AcceptRekey(guest, current, id, token).value;
    assert rotated.key == Sha256(token);
  }
}
