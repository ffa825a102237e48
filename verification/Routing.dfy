/** The session handshake: one state per peer address (network/src/routing_table.rs). */
module Routing {
  import opened Prelude

  type Addr = nat
  type Public = nat
  type Private = nat
  type Secret = nat
  type Nonce = nat
  type Cipher = seq<Byte>

  datatype KeyPair = KeyPair(public: Public, private: Private)
  datatype Session = Session(secret: Secret, nonce: Nonce)
  datatype SecretOrigin = Shared | Preimported

  /** Key exchange and encryption. Each may fail; of what they compute nothing else is known. */
  datatype Crypto = Crypto(
    publicOf: Private -> Public,
    exchange: (Public, Private) -> Option<Secret>,
    encrypt: (Nonce, Secret) -> Option<Cipher>,
    decrypt: (Cipher, Secret) -> Option<Nonce>)

  datatype State =
    | Candidate(local: KeyPair)
    | Registered(local: KeyPair, remote: Public, origin: SecretOrigin)
    | Establishing1(local: KeyPair)
    | Establishing2(local: KeyPair, remote: Public, secret: Secret, origin: SecretOrigin)
    | Established(local: KeyPair, remote: Public, secret: Secret, origin: SecretOrigin, nonce: Nonce)
    | Banned

  datatype Reason = WrongState | UnexpectedLocal | UnexpectedRemote | CannotExchange | CannotEncrypt | CannotDecrypt

  datatype Reply = Reply(encryptedNonce: Cipher, public: Public, session: Session)

  predicate IsPair(crypto: Crypto, k: KeyPair) { k.public == crypto.publicOf(k.private) }

  /** A secret in the table is the one exchanged between the remote public key and the local private key. */
  predicate GoodState(crypto: Crypto, s: State) {
    match s
    case Candidate(local) => IsPair(crypto, local)
    case Registered(local, _, _) => IsPair(crypto, local)
    case Establishing1(local) => IsPair(crypto, local)
    case Establishing2(local, remote, secret, _) => IsPair(crypto, local) && crypto.exchange(remote, local.private) == Some(secret)
    case Established(local, remote, secret, _, _) => IsPair(crypto, local) && crypto.exchange(remote, local.private) == Some(secret)
    case Banned => true
  }

  /** The remote key that a state is bound to. */
  function RemotePublic(s: State): Option<Public> {
    if s.Registered? || s.Establishing2? || s.Established? then Some(s.remote) else None
  }

  function LocalPublic(s: State): Option<Public> { if s.Banned? then None else Some(s.local.public) }

  function Bound(entries: map<Addr, State>, a: Addr): Option<Public> {
    if a in entries then RemotePublic(entries[a]) else None
  }

  function Local(entries: map<Addr, State>, a: Addr): Option<KeyPair> {
    if a in entries && !entries[a].Banned? then Some(entries[a].local) else None
  }

  /** The state an operation starts from. */
  function Before(entries: map<Addr, State>, target: Addr, generated: KeyPair): State {
    if target in entries then entries[target] else Candidate(generated)
  }

  /** A new session with the remote key is possible: the peer is not engaged, and not bound to another key. */
  predicate MayAccept(s: State, remote: Public) { s.Candidate? || (s.Registered? && s.remote == remote) }

  /** A handshake of our own is on the way that the remote key may answer. */
  predicate Awaits(s: State, remote: Public) { s.Establishing1? || (s.Establishing2? && s.remote == remote) }

  /** The cryptography needed for a reply works. */
  predicate CanReply(crypto: Crypto, local: KeyPair, remote: Public, nonce: Nonce) {
    var secret := crypto.exchange(remote, local.private);
    secret.Some? && crypto.encrypt(nonce, secret.value).Some?
  }

  predicate CanComplete(crypto: Crypto, local: KeyPair, remote: Public, encryptedNonce: Cipher) {
    var secret := crypto.exchange(remote, local.private);
    secret.Some? && crypto.decrypt(encryptedNonce, secret.value).Some?
  }

  // ----- both ends of a handshake -----

  /** What the recipient answers to a peer with the given public key. */
  predicate IsReply(crypto: Crypto, r: Reply, local: KeyPair, remote: Public) {
    && r.public == local.public
    && crypto.exchange(remote, local.private) == Some(r.session.secret)
    && crypto.encrypt(r.session.nonce, r.session.secret) == Some(r.encryptedNonce)
  }

  /** The session an initiator derives from the answer. */
  predicate IsCompletion(crypto: Crypto, s: Session, local: KeyPair, remote: Public, encryptedNonce: Cipher) {
    && crypto.exchange(remote, local.private) == Some(s.secret)
    && crypto.decrypt(encryptedNonce, s.secret) == Some(s.nonce)
  }

  /** Exchange is symmetric, and decryption inverts encryption. */
  ghost predicate Sensible(crypto: Crypto) {
    && (forall a: Private, b: Private :: crypto.exchange(crypto.publicOf(a), b) == crypto.exchange(crypto.publicOf(b), a))
    && (forall n: Nonce, s: Secret :: crypto.encrypt(n, s).Some? ==> crypto.decrypt(crypto.encrypt(n, s).value, s) == Some(n))
  }

  /** When the answer was meant for the initiator's key, both ends hold the same secret and nonce. */
  lemma SameSession(crypto: Crypto, initiator: KeyPair, recipient: KeyPair, reply: Reply, s: Session)
    requires Sensible(crypto) && IsPair(crypto, initiator) && IsPair(crypto, recipient)
    requires IsReply(crypto, reply, recipient, initiator.public)
    requires IsCompletion(crypto, s, initiator, reply.public, reply.encryptedNonce)
    ensures s == reply.session
  {
    assert crypto.exchange(crypto.publicOf(initiator.private), recipient.private)
        == crypto.exchange(crypto.publicOf(recipient.private), initiator.private);
  }

  class RoutingTable {
    var entries: map<Addr, State>
    const crypto: Crypto

    constructor (crypto: Crypto)
      ensures Valid() && entries == map[] && this.crypto == crypto
    {
      entries, this.crypto := map[], crypto;
    }

    ghost predicate Valid()
      reads this
    {
      forall a :: a in entries ==> GoodState(crypto, entries[a])
    }

    /** The entry of a peer, which becomes a candidate with a fresh key if it was not known. */
    method Entry(target: Addr, generated: KeyPair) returns (s: State)
      requires Valid() && IsPair(crypto, generated)
      modifies this
      ensures Valid() && s == Before(old(entries), target, generated) && entries == old(entries)[target := s]
    {
      if target !in entries {
        entries := entries[target := Candidate(generated)];
      }
      s := entries[target];
    }

    method Update(target: Addr, s: State)
      requires Valid() && target in entries && GoodState(crypto, s)
      modifies this
      ensures Valid() && entries == old(entries)[target := s]
    {
      entries := entries[target := s];
    }

    method Touch(target: Addr, generated: KeyPair) returns (public: Option<Public>)
      requires Valid() && IsPair(crypto, generated)
      modifies this
      ensures Valid() && entries == old(entries)[target := Before(old(entries), target, generated)]
      ensures public == LocalPublic(entries[target])
    {
      var s := Entry(target, generated);
      public := LocalPublic(s);
    }

    /** Binds a peer to a remote key, unless a session is on the way or there. */
    method RegisterRemotePublic(target: Addr, remote: Public, generated: KeyPair) returns (public: Option<Public>)
      requires Valid() && IsPair(crypto, generated)
      modifies this
      ensures var s := Before(old(entries), target, generated);
              && (public.Some? <==> s.Candidate? || s.Registered?)
              && entries == old(entries)[target := if public.Some? then Registered(s.local, remote, Preimported) else s]
              && (public.Some? ==> public == LocalPublic(s))
      ensures Valid()
    {
      var s := Entry(target, generated);
      if s.Candidate? || s.Registered? {
        Update(target, Registered(s.local, remote, Preimported));
        return Some(s.local.public);
      }
      return None;
    }

    /** Gives a peer a fresh local key, unless a session is on the way or there. */
    method ResetLocalKey(target: Addr, generated: KeyPair) returns (done: bool)
      requires Valid() && IsPair(crypto, generated)
      modifies this
      ensures var s := Before(old(entries), target, generated);
              && (done <==> s.Candidate? || s.Registered?)
              && entries == old(entries)[target := if s.Candidate? then Candidate(generated)
                                                   else if s.Registered? then Registered(generated, s.remote, s.origin) else s]
      ensures Valid()
    {
      var s := Entry(target, generated);
      match s {
        case Candidate(_) =>
          Update(target, Candidate(generated));
          return true;
        case Registered(_, remote, origin) =>
          Update(target, Registered(generated, remote, origin));
          return true;
        case _ =>
          return false;
      }
    }

    /** Starts a handshake as its initiator; the answer is the remote key that the peer is bound to. */
    method TryEstablish(target: Addr, generated: KeyPair) returns (r: Result<Option<Public>, Reason>)
      requires Valid() && IsPair(crypto, generated)
      modifies this
      ensures var s := Before(old(entries), target, generated);
              && target in entries && entries == old(entries)[target := entries[target]]
              && (r.Ok? <==> s.Candidate? || (s.Registered? && crypto.exchange(s.remote, s.local.private).Some?))
              && (r.Ok? ==> r.value == RemotePublic(s) && RemotePublic(entries[target]) == RemotePublic(s))
              && entries[target] == (if r.Err? then s
                                     else if s.Candidate? then Establishing1(s.local)
                                     else Establishing2(s.local, s.remote, crypto.exchange(s.remote, s.local.private).value, s.origin))
      ensures Valid()
    {
      var s := Entry(target, generated);
      match s {
        case Candidate(local) =>
          Update(target, Establishing1(local));
          return Ok(None);
        case Registered(local, remote, origin) =>
          var secret := crypto.exchange(remote, local.private);
          if secret.None? {
            return Err(CannotExchange);
          }
          Update(target, Establishing2(local, remote, secret.value, origin));
          return Ok(Some(remote));
        case _ =>
          return Err(WrongState);
      }
    }

    /** Establishes a session as recipient, when no handshake of our own is on the way. */
    method Accept(target: Addr, s: State, remote: Public, origin: SecretOrigin, nonce: Nonce)
        returns (r: Result<Option<Reply>, Reason>)
      requires Valid() && target in entries && s == entries[target] && (s.Candidate? || s.Registered?)
      requires s.Registered? ==> remote == s.remote && origin == s.origin
      modifies this
      ensures r.Ok? <==> CanReply(crypto, s.local, remote, nonce)
      ensures r.Ok? ==> r.value.Some? && IsReply(crypto, r.value.value, s.local, remote) && r.value.value.session.nonce == nonce
      ensures entries == old(entries)[target := if r.Err? then s
                                                else Established(s.local, remote, r.value.value.session.secret, origin, nonce)]
      ensures Valid()
    {
      var secret := crypto.exchange(remote, s.local.private);
      if secret.None? {
        return Err(CannotExchange);
      }
      var encrypted := crypto.encrypt(nonce, secret.value);
      if encrypted.None? {
        return Err(CannotEncrypt);
      }
      Update(target, Established(s.local, remote, secret.value, origin, nonce));
      return Ok(Some(Reply(encrypted.value, s.local.public, Session(secret.value, nonce))));
    }

    /** A session is there if an answer was sent, with the secret and the nonce of the answer; otherwise the peer is
        as before. */
    ghost predicate Answered(s: State, s': State, r: Result<Option<Reply>, Reason>, remote: Public, nonce: Nonce) {
      if r.Ok? && r.value.Some?
      then && (s.Candidate? || s.Registered?) && IsReply(crypto, r.value.value, s.local, remote) && r.value.value.session.nonce == nonce
           && s' == Established(s.local, remote, r.value.value.session.secret, if s.Candidate? then Shared else s.origin, nonce)
      else s' == s
    }

    /** The recipient's side of a handshake whose initiator does not know our key. */
    method SetRecipientEstablish1(target: Addr, remote: Public, nonce: Nonce, generated: KeyPair)
        returns (r: Result<Option<Reply>, Reason>)
      requires Valid() && IsPair(crypto, generated)
      modifies this
      ensures var s := Before(old(entries), target, generated);
              && target in entries && entries == old(entries)[target := entries[target]]
              && Answered(s, entries[target], r, remote, nonce)
              && (r.Ok? && r.value.Some? <==> MayAccept(s, remote) && CanReply(crypto, s.local, remote, nonce))
              && (r == Ok(None) <==> Awaits(s, remote))
      ensures Valid()
    {
      var s := Entry(target, generated);
      match s {
        case Candidate(_) =>
          r := Accept(target, s, remote, Shared, nonce);
        case Registered(_, expected, origin) =>
          if expected != remote {
            return Err(UnexpectedRemote);
          }
          r := Accept(target, s, remote, origin, nonce);
        case Establishing1(_) =>
          return Ok(None);
        case Establishing2(_, expected, _, _) =>
          if expected != remote {
            return Err(UnexpectedRemote);
          }
          return Ok(None);
        case _ =>
          return Err(WrongState);
      }
    }

    /** The recipient's side of a handshake whose initiator says which key of ours it expects. */
    method SetRecipientEstablish2(target: Addr, localPublic: Public, remote: Public, nonce: Nonce, generated: KeyPair)
        returns (r: Result<Option<Reply>, Reason>)
      requires Valid() && IsPair(crypto, generated)
      modifies this
      ensures var s := Before(old(entries), target, generated);
              && target in entries && entries == old(entries)[target := entries[target]]
              && Answered(s, entries[target], r, remote, nonce)
              && (r.Ok? && r.value.Some? <==>
                    MayAccept(s, remote) && localPublic == s.local.public && CanReply(crypto, s.local, remote, nonce))
              && (r == Ok(None) <==> Awaits(s, remote) && localPublic == s.local.public)
      ensures Valid()
    {
      var s := Entry(target, generated);
      if s.Established? || s.Banned? {
        return Err(WrongState);
      }
      if localPublic != s.local.public {
        return Err(UnexpectedLocal);
      }
      if RemotePublic(s).Some? && RemotePublic(s).value != remote {
        return Err(UnexpectedRemote);
      }
      match s {
        case Candidate(_) =>
          r := Accept(target, s, remote, Shared, nonce);
        case Registered(_, _, origin) =>
          r := Accept(target, s, remote, origin, nonce);
        case _ =>
          return Ok(None);
      }
    }

    /** Completes a handshake with the recipient's answer. */
    method SetInitiatorEstablish(target: Addr, remote: Public, encryptedNonce: Cipher, generated: KeyPair)
        returns (r: Result<Session, Reason>)
      requires Valid() && IsPair(crypto, generated)
      modifies this
      ensures var s := Before(old(entries), target, generated);
              && target in entries && entries == old(entries)[target := entries[target]]
              && (r.Ok? <==> Awaits(s, remote) && CanComplete(crypto, s.local, remote, encryptedNonce))
              && (r.Ok? ==> IsCompletion(crypto, r.value, s.local, remote, encryptedNonce))
              && entries[target] == (if r.Err? then s
                                     else Established(s.local, remote, r.value.secret, if s.Establishing1? then Shared else s.origin,
                                                      r.value.nonce))
      ensures Valid()
    {
      var s := Entry(target, generated);
      var secret, origin;
      match s {
        case Establishing1(local) =>
          var exchanged := crypto.exchange(remote, local.private);
          if exchanged.None? {
            return Err(CannotExchange);
          }
          secret, origin := exchanged.value, Shared;
        case Establishing2(local, expected, stored, o) =>
          if remote != expected {
            return Err(UnexpectedRemote);
          }
          assert Some(stored) == crypto.exchange(remote, local.private);
          secret, origin := stored, o;
        case _ =>
          return Err(WrongState);
      }
      var nonce := crypto.decrypt(encryptedNonce, secret);
      if nonce.None? {
        return Err(CannotDecrypt);
      }
      Update(target, Established(s.local, remote, secret, origin, nonce.value));
      return Ok(Session(secret, nonce.value));
    }

    /** Gives up a handshake. */
    method ResetInitiatorEstablish(target: Addr, generated: KeyPair) returns (done: bool)
      requires Valid() && IsPair(crypto, generated)
      modifies this
      ensures var s := Before(old(entries), target, generated);
              && (done <==> s.Establishing1? || s.Establishing2?)
              && entries == old(entries)[target := if s.Establishing1? then Candidate(s.local)
                                                   else if s.Establishing2? then Registered(s.local, s.remote, s.origin) else s]
      ensures Valid()
    {
      var s := Entry(target, generated);
      match s {
        case Establishing1(local) =>
          Update(target, Candidate(local));
          return true;
        case Establishing2(local, remote, _, origin) =>
          Update(target, Registered(local, remote, origin));
          return true;
        case _ =>
          return false;
      }
    }

    method Ban(target: Addr, generated: KeyPair) returns (wasEstablished: bool)
      requires Valid() && IsPair(crypto, generated)
      modifies this
      ensures Valid() && entries == old(entries)[target := Banned]
      ensures wasEstablished <==> target in old(entries) && old(entries)[target].Established?
    {
      var s := Entry(target, generated);
      Update(target, Banned);
      wasEstablished := s.Established?;
    }

    method Unban(target: Addr, generated: KeyPair) returns (done: bool)
      requires Valid() && IsPair(crypto, generated)
      modifies this
      ensures var s := Before(old(entries), target, generated);
              (done <==> s.Banned?) && entries == old(entries)[target := if done then Candidate(generated) else s]
      ensures Valid()
    {
      var s := Entry(target, generated);
      if !s.Banned? {
        return false;
      }
      Update(target, Candidate(generated));
      return true;
    }

    method Remove(target: Addr) returns (done: bool)
      requires Valid()
      modifies this
      ensures Valid()
      ensures done <==> !(target in old(entries) && old(entries)[target].Banned?)
      ensures entries == if done then old(entries) - {target} else old(entries)
    {
      if target in entries && entries[target].Banned? {
        return false;
      }
      entries := entries - {target};
      return true;
    }
  }

  // ----- runs -----

  datatype Event =
    | Touches(target: Addr)
    | Registers(target: Addr, remote: Public)
    | ResetsKey(target: Addr)
    | TriesEstablish(target: Addr)
    | Accepts1(target: Addr, remote: Public, nonce: Nonce)
    | Accepts2(target: Addr, local: Public, remote: Public, nonce: Nonce)
    | Completes(target: Addr, remote: Public, encryptedNonce: Cipher)
    | GivesUp(target: Addr)
    | Bans(target: Addr)
    | Unbans(target: Addr)
    | Removes(target: Addr)

  /** The event may bind the peer to another key, or unbind it. */
  predicate Rebinds(e: Event, a: Addr) { e.target == a && (e.Registers? || e.Bans? || e.Removes?) }

  /** The event may give the peer another local key. */
  predicate Rekeys(e: Event, a: Addr) { e.target == a && (e.ResetsKey? || e.Bans? || e.Unbans? || e.Removes?) }

  /** What an event makes of the state of its peer. */
  function After(crypto: Crypto, s: State, e: Event, generated: KeyPair): State {
    match e
    case Touches(_) => s
    case Registers(_, remote) => if s.Candidate? || s.Registered? then Registered(s.local, remote, Preimported) else s
    case ResetsKey(_) =>
      if s.Candidate? then Candidate(generated) else if s.Registered? then Registered(generated, s.remote, s.origin) else s
    case TriesEstablish(_) => Tried(crypto, s)
    case Accepts1(_, remote, nonce) => if MayAccept(s, remote) then Accepted(crypto, s, remote, nonce) else s
    case Accepts2(_, local, remote, nonce) =>
      if MayAccept(s, remote) && local == s.local.public then Accepted(crypto, s, remote, nonce) else s
    case Completes(_, remote, encryptedNonce) => if Awaits(s, remote) then Completed(crypto, s, remote, encryptedNonce) else s
    case GivesUp(_) =>
      if s.Establishing1? then Candidate(s.local) else if s.Establishing2? then Registered(s.local, s.remote, s.origin) else s
    case Bans(_) => Banned
    case Unbans(_) => if s.Banned? then Candidate(generated) else s
    case Removes(_) => s
  }

  function Tried(crypto: Crypto, s: State): State {
    if s.Candidate? then Establishing1(s.local)
    else if s.Registered? && crypto.exchange(s.remote, s.local.private).Some? then
      Establishing2(s.local, s.remote, crypto.exchange(s.remote, s.local.private).value, s.origin)
    else s
  }

  function Accepted(crypto: Crypto, s: State, remote: Public, nonce: Nonce): State
    requires MayAccept(s, remote)
  {
    if CanReply(crypto, s.local, remote, nonce)
    then Established(s.local, remote, crypto.exchange(remote, s.local.private).value, if s.Candidate? then Shared else s.origin, nonce)
    else s
  }

  function Completed(crypto: Crypto, s: State, remote: Public, encryptedNonce: Cipher): State
    requires Awaits(s, remote)
  {
    if CanComplete(crypto, s.local, remote, encryptedNonce)
    then var secret := crypto.exchange(remote, s.local.private).value;
         Established(s.local, remote, secret, if s.Establishing1? then Shared else s.origin,
                     crypto.decrypt(encryptedNonce, secret).value)
    else s
  }

  /** The table after an event: a peer that was not known becomes a candidate first, except that removing forgets it. */
  function Applied(crypto: Crypto, entries: map<Addr, State>, e: Event, generated: KeyPair): map<Addr, State> {
    if e.Removes? then
      if e.target in entries && entries[e.target].Banned? then entries else entries - {e.target}
    else entries[e.target := After(crypto, Before(entries, e.target, generated), e, generated)]
  }

  function AppliedAll(crypto: Crypto, entries: map<Addr, State>, events: seq<Event>, keys: seq<KeyPair>): map<Addr, State>
    requires |keys| == |events|
  {
    if events == [] then entries
    else var n := |events| - 1; Applied(crypto, AppliedAll(crypto, entries, events[..n], keys[..n]), events[n], keys[n])
  }

  /** An event changes nothing at other peers; unless it may, neither the remote nor the local key of its own. */
  lemma AppliedKeeps(crypto: Crypto, entries: map<Addr, State>, e: Event, generated: KeyPair, a: Addr)
    ensures var entries' := Applied(crypto, entries, e, generated);
            && (a != e.target ==> (a in entries' <==> a in entries) && (a in entries ==> entries'[a] == entries[a]))
            && (!Rebinds(e, a) && Bound(entries, a).Some? ==> Bound(entries', a) == Bound(entries, a))
            && (!Rekeys(e, a) && Local(entries, a).Some? ==> Local(entries', a) == Local(entries, a))
  {
    hide CanReply, CanComplete;
  }

  lemma {:induction false} AllAppliedKeep(crypto: Crypto, entries: map<Addr, State>, events: seq<Event>, keys: seq<KeyPair>, a: Addr)
    requires |keys| == |events|
    ensures var entries' := AppliedAll(crypto, entries, events, keys);
            && ((forall i :: 0 <= i < |events| ==> !Rebinds(events[i], a)) && Bound(entries, a).Some? ==>
                  Bound(entries', a) == Bound(entries, a))
            && ((forall i :: 0 <= i < |events| ==> !Rekeys(events[i], a)) && Local(entries, a).Some? ==>
                  Local(entries', a) == Local(entries, a))
  {
    hide Applied, Rebinds, Rekeys;
    if events != [] {
      var n := |events| - 1;
      AllAppliedKeep(crypto, entries, events[..n], keys[..n], a);
      AppliedKeeps(crypto, AppliedAll(crypto, entries, events[..n], keys[..n]), events[n], keys[n], a);
      forall i | 0 <= i < n ensures events[..n][i] == events[i] {
      }
    }
  }

  method Perform(table: RoutingTable, e: Event, generated: KeyPair)
    requires table.Valid() && IsPair(table.crypto, generated)
    modifies table
    ensures table.Valid() && table.entries == Applied(table.crypto, old(table.entries), e, generated)
  {
    hide RoutingTable.Valid;
    match e {
      case Touches(t) => var _ := table.Touch(t, generated);
      case Registers(t, remote) => var _ := table.RegisterRemotePublic(t, remote, generated);
      case ResetsKey(t) => var _ := table.ResetLocalKey(t, generated);
      case TriesEstablish(t) => var _ := table.TryEstablish(t, generated);
      case Accepts1(t, remote, nonce) => var _ := table.SetRecipientEstablish1(t, remote, nonce, generated);
      case Accepts2(t, local, remote, nonce) => var _ := table.SetRecipientEstablish2(t, local, remote, nonce, generated);
      case Completes(t, remote, nonce) => var _ := table.SetInitiatorEstablish(t, remote, nonce, generated);
      case GivesUp(t) => var _ := table.ResetInitiatorEstablish(t, generated);
      case Bans(t) => var _ := table.Ban(t, generated);
      case Unbans(t) => var _ := table.Unban(t, generated);
      case Removes(t) => var _ := table.Remove(t);
    }
  }

  /** In any run of events the secrets stay those of the keys, a peer that is bound to a remote key stays bound to
      it until it is registered again, banned or removed, and its local key stays until it is reset. */
  method PerformAll(table: RoutingTable, events: seq<Event>, keys: seq<KeyPair>)
    requires table.Valid() && |keys| == |events|
    requires forall i :: 0 <= i < |keys| ==> IsPair(table.crypto, keys[i])
    modifies table
    ensures table.Valid() && table.entries == AppliedAll(table.crypto, old(table.entries), events, keys)
    ensures forall peer ::
              (forall i :: 0 <= i < |events| ==> !Rebinds(events[i], peer)) && Bound(old(table.entries), peer).Some? ==>
                Bound(table.entries, peer) == Bound(old(table.entries), peer)
    ensures forall peer ::
              (forall i :: 0 <= i < |events| ==> !Rekeys(events[i], peer)) && Local(old(table.entries), peer).Some? ==>
                Local(table.entries, peer) == Local(old(table.entries), peer)
  {
    hide RoutingTable.Valid, Applied, Rebinds, Rekeys, Bound, Local;
    for i := 0 to |events|
      invariant table.Valid() && table.entries == AppliedAll(table.crypto, old(table.entries), events[..i], keys[..i])
    {
      assert events[..i + 1][..i] == events[..i] && keys[..i + 1][..i] == keys[..i];
      Perform(table, events[i], keys[i]);
    }
    assert events[..|events|] == events && keys[..|keys|] == keys;
    forall peer
      ensures (forall i :: 0 <= i < |events| ==> !Rebinds(events[i], peer)) && Bound(old(table.entries), peer).Some? ==>
                Bound(table.entries, peer) == Bound(old(table.entries), peer)
      ensures (forall i :: 0 <= i < |events| ==> !Rekeys(events[i], peer)) && Local(old(table.entries), peer).Some? ==>
                Local(table.entries, peer) == Local(old(table.entries), peer)
    {
      AllAppliedKeep(table.crypto, old(table.entries), events, keys, peer);
    }
  }

  // ----- a whole handshake -----

  /** The initiator can start: the peer is a candidate, or registered with a key that the exchange works with. */
  predicate CanStart(crypto: Crypto, s: State) {
    s.Candidate? || (s.Registered? && crypto.exchange(s.remote, s.local.private).Some?)
  }

  /** The recipient answers a key, if the key that the initiator expects of it, if any, is its own. */
  predicate CanAnswer(crypto: Crypto, s: State, expected: Option<Public>, remote: Public, nonce: Nonce) {
    MayAccept(s, remote) && (expected.Some? ==> expected.value == s.local.public) && CanReply(crypto, s.local, remote, nonce)
  }

  /** A whole handshake, with anything happening at the initiator in between except that the peer gets a new key. The
      recipient has a session exactly if the initiator can start and the recipient can answer; an initiator that is bound to
      a key names it. The initiator has one exactly if, after what has happened, it still awaits the recipient's key; and
      then both have the same. */
  method Handshake(initiator: RoutingTable, recipient: RoutingTable, atInitiator: Addr, atRecipient: Addr, nonce: Nonce,
                   events: seq<Event>, keys: seq<KeyPair>)
      returns (theirs: Option<Session>, ours: Option<Session>)
    requires initiator != recipient && initiator.crypto == recipient.crypto && Sensible(initiator.crypto)
    requires initiator.Valid() && recipient.Valid() && |keys| == |events| + 3
    requires forall i :: 0 <= i < |keys| ==> IsPair(initiator.crypto, keys[i])
    requires forall i :: 0 <= i < |events| ==> !Rekeys(events[i], atInitiator)
    modifies initiator, recipient
    ensures var n := |events|;
            var s := Before(old(initiator.entries), atInitiator, keys[n]);
            var r := Before(old(recipient.entries), atRecipient, keys[n + 1]);
            && (theirs.Some? <==> CanStart(initiator.crypto, s) && CanAnswer(initiator.crypto, r, RemotePublic(s), s.local.public, nonce))
            && (theirs.Some? ==>
                  && theirs.value.nonce == nonce
                  && initiator.crypto.exchange(s.local.public, r.local.private) == Some(theirs.value.secret))
            && (theirs.Some? ==>
                  var between := AppliedAll(initiator.crypto, old(initiator.entries)[atInitiator := Tried(initiator.crypto, s)],
                                            events, keys[..n]);
                  && atInitiator in between
                  && (ours.Some? <==> Awaits(between[atInitiator], r.local.public)))
    ensures ours.Some? ==> theirs == ours
    ensures initiator.Valid() && recipient.Valid()
  {
    hide RoutingTable.Valid, Sensible, AppliedAll, CanReply, CanComplete;
    theirs, ours := None, None;
    var n := |events|;
    var started := initiator.TryEstablish(atInitiator, keys[n]);
    if started.Err? {
      return;
    }
    var public := LocalPublic(initiator.entries[atInitiator]);
    GoodLocal(initiator, atInitiator);
    var reply;
    if started.value.Some? {
      reply := recipient.SetRecipientEstablish2(atRecipient, started.value.value, public.value, nonce, keys[n + 1]);
    } else {
      reply := recipient.SetRecipientEstablish1(atRecipient, public.value, nonce, keys[n + 1]);
    }
    if reply.Err? || reply.value.None? {
      return;
    }
    theirs := Some(reply.value.value.session);
    GoodLocal(recipient, atRecipient);
    ghost var local := Local(initiator.entries, atInitiator).value;
    PerformAll(initiator, events, keys[..n]);
    LocalThere(initiator.entries, atInitiator, local);
    WillComplete(initiator.crypto, local, recipient.entries[atRecipient].local, reply.value.value);
    var done := initiator.SetInitiatorEstablish(atInitiator, reply.value.value.public, reply.value.value.encryptedNonce, keys[n + 2]);
    if done.Err? {
      return;
    }
    ours := Some(done.value);
    SameSession(initiator.crypto, local, recipient.entries[atRecipient].local, reply.value.value, done.value);
  }

  lemma LocalThere(entries: map<Addr, State>, a: Addr, local: KeyPair)
    requires Local(entries, a) == Some(local)
    ensures a in entries && !entries[a].Banned? && entries[a].local == local
  {
  }

  /** With the keys unchanged the answer can be used. */
  lemma WillComplete(crypto: Crypto, initiator: KeyPair, recipient: KeyPair, reply: Reply)
    requires Sensible(crypto) && IsPair(crypto, initiator) && IsPair(crypto, recipient)
    requires IsReply(crypto, reply, recipient, initiator.public)
    ensures CanComplete(crypto, initiator, reply.public, reply.encryptedNonce)
  {
    assert crypto.exchange(crypto.publicOf(initiator.private), recipient.private)
        == crypto.exchange(crypto.publicOf(recipient.private), initiator.private);
  }

  lemma GoodLocal(table: RoutingTable, a: Addr)
    requires table.Valid() && a in table.entries && !table.entries[a].Banned?
    ensures IsPair(table.crypto, table.entries[a].local)
  {
  }

  // ----- first contact -----

  /** A toy cryptosystem: the laws that the handshake relies on can be met. */
  const TOY: Crypto := Crypto(
    k => k,
    (public, private) => Some(public + private),
    (nonce: Nonce, secret: Secret) => if nonce < 256 then Some([nonce]) else None,
    (cipher: Cipher, secret: Secret) => if |cipher| == 1 then Some(cipher[0] as nat) else None)

  lemma ToyIsSensible()
    ensures Sensible(TOY)
  {
  }

  /** Two nodes that do not know each other: if the cryptography works for their keys, both have the same session. */
  method FirstContact(crypto: Crypto, a: KeyPair, b: KeyPair, unused: KeyPair, atA: Addr, atB: Addr, nonce: Nonce)
      returns (theirs: Option<Session>, ours: Option<Session>)
    requires Sensible(crypto) && IsPair(crypto, a) && IsPair(crypto, b) && IsPair(crypto, unused)
    ensures var secret := crypto.exchange(a.public, b.private);
            if secret.Some? && crypto.encrypt(nonce, secret.value).Some?
            then theirs == ours == Some(Session(secret.value, nonce))
            else theirs.None? && ours.None?
  {
    hide Sensible;
    var initiator := new RoutingTable(crypto);
    var recipient := new RoutingTable(crypto);
    theirs, ours := Handshake(initiator, recipient, atA, atB, nonce, [], [a, b, unused]);
  }

  /** Two nodes that have registered each other's keys: the initiator names the key it expects. With the right key both have
      the same session, with a wrong one neither has. */
  method KnownContact(crypto: Crypto, a: KeyPair, b: KeyPair, expected: Public, unused: KeyPair, atA: Addr, atB: Addr, nonce: Nonce)
      returns (theirs: Option<Session>, ours: Option<Session>)
    requires Sensible(crypto) && IsPair(crypto, a) && IsPair(crypto, b) && IsPair(crypto, unused)
    requires crypto.exchange(b.public, a.private).Some? && crypto.exchange(expected, a.private).Some?
    requires crypto.encrypt(nonce, crypto.exchange(b.public, a.private).value).Some?
    ensures if expected == b.public then theirs == ours == Some(Session(crypto.exchange(b.public, a.private).value, nonce))
            else theirs.None? && ours.None?
  {
    hide Sensible;
    var initiator := new RoutingTable(crypto);
    var recipient := new RoutingTable(crypto);
    var _ := initiator.RegisterRemotePublic(atA, expected, a);
    var _ := recipient.RegisterRemotePublic(atB, a.public, b);
    SymmetricExchange(crypto, a, b);
    theirs, ours := Handshake(initiator, recipient, atA, atB, nonce, [], [unused, unused, unused]);
  }

  lemma SymmetricExchange(crypto: Crypto, a: KeyPair, b: KeyPair)
    requires Sensible(crypto) && IsPair(crypto, a) && IsPair(crypto, b)
    ensures crypto.exchange(a.public, b.private) == crypto.exchange(b.public, a.private)
  {
  }
}
