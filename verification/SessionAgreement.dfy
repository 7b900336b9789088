/**
 Session key and salt agreement: both sides derive the same value or both refuse, and what is derived from is
 unambiguous. X25519 and HKDF are parameters.
 */
module SessionAgreement {
  import opened ByteStrings
  import opened SigningMessages
  import opened Wrappers

  const INFO_CONTENT_KEY: Bytes := [99, 101, 108, 108, 111, 47, 115, 101, 115, 115, 105, 111, 110, 47, 118, 49, 47, 99,
      111, 110, 116, 101, 110, 116, 45, 107, 101, 121]
  const INFO_SESSION_SALT: Bytes := [99, 101, 108, 108, 111, 47, 115, 101, 115, 115, 105, 111, 110, 47, 118, 49, 47,
      115, 97, 108, 116]

  const X25519_KEY_BYTES := 32
  const SALT_CONTRIBUTION_BYTES := 32

  // ----- the order both sides put their halves in

  /** Lexicographic order of byte strings. */
  function LexBefore(a: Bytes, b: Bytes): bool {
    if a == [] || b == [] then |a| < |b|
    else if a[0] != b[0] then a[0] < b[0]
    else LexBefore(a[1..], b[1..])
  }

  method LexLess(a: Bytes, b: Bytes) returns (less: bool)
    ensures less == LexBefore(a, b)
  {
    var n := if |a| < |b| then |a| else |b|;
    for i := 0 to n
      invariant LexBefore(a[i..], b[i..]) == LexBefore(a, b)
    {
      if a[i] != b[i] {
        return a[i] < b[i];
      }
      assert a[i..][1..] == a[i + 1..] && b[i..][1..] == b[i + 1..];
    }
    return |a| < |b|;
  }

  /** Of two different strings exactly one comes first. */
  lemma {:induction false} LexTotal(a: Bytes, b: Bytes)
    requires a != b
    ensures LexBefore(a, b) != LexBefore(b, a)
  {
    if a != [] && b != [] && a[0] == b[0] {
      assert a == [a[0]] + a[1..] && b == [b[0]] + b[1..];
      LexTotal(a[1..], b[1..]);
    }
  }

  /** The two halves in order. */
  function Ordered(a: Bytes, b: Bytes): (Bytes, Bytes) {
    if LexBefore(a, b) then (a, b) else (b, a)
  }

  lemma OrderedSymmetric(a: Bytes, b: Bytes)
    ensures Ordered(a, b) == Ordered(b, a)
  {
    if a != b {
      LexTotal(a, b);
    }
  }

  predicate AllZero(b: Bytes) {
    forall i :: 0 <= i < |b| ==> b[i] == 0
  }

  // ----- the session key

  /**
   The shared secret of a secret and a public key, or nothing when the point is refused; and a secret's public key.
   */
  datatype Curve = Curve(shared: (Bytes, Bytes) -> Option<Bytes>, publicKey: Bytes -> Bytes)

  /** RFC 7748, section 6.1: the exchange is commutative; public keys are 32 bytes with bit 255 clear. */
  ghost predicate IsX25519(x: Curve) {
    && (forall s: Bytes {:trigger x.publicKey(s)} :: |s| == X25519_KEY_BYTES ==>
          |x.publicKey(s)| == X25519_KEY_BYTES && x.publicKey(s)[31] < 0x80)
    && (forall s: Bytes, t: Bytes {:trigger x.shared(s, x.publicKey(t))} ::
          |s| == X25519_KEY_BYTES && |t| == X25519_KEY_BYTES ==>
          x.shared(s, x.publicKey(t)) == x.shared(t, x.publicKey(s)))
    && forall s: Bytes, p: Bytes {:trigger x.shared(s, p)} :: x.shared(s, p).Some? ==>
        |x.shared(s, p).value| == X25519_KEY_BYTES
  }

  /** What a key is derived from. */
  datatype KdfInput = KdfInput(material: Bytes, salt: Bytes, info: Bytes)

  type Kdf = KdfInput -> Bytes

  datatype Refusal =
    | PeerKeyLength
    | OwnKeyLength
    | NonCanonical
    | EmptySession
    | UnusablePoint
    | Degenerate
    | Reflection

  /** Beside the two keys: the session, and what a hybrid exchange adds. */
  datatype Context = Context(sessionId: Bytes, extra: Bytes, transcript: Bytes)

  function Info(first: Bytes, second: Bytes, transcript: Bytes): Bytes {
    INFO_CONTENT_KEY + (first + (second + transcript))
  }

  function SecretInput(x: Curve, own: Bytes, peer: Bytes, c: Context): Result<KdfInput, Refusal> {
    if |peer| != X25519_KEY_BYTES then Err(PeerKeyLength)
    else if |own| != X25519_KEY_BYTES then Err(OwnKeyLength)
    else if peer[31] >= 0x80 then Err(NonCanonical)
    else if c.sessionId == [] then Err(EmptySession)
    else
      match x.shared(own, peer)
      case None => Err(UnusablePoint)
      case Some(shared) =>
        if AllZero(shared) then Err(Degenerate)
        else if x.publicKey(own) == peer then Err(Reflection)
        else
          var halves := Ordered(x.publicKey(own), peer);
          Ok(KdfInput(shared + c.extra, c.sessionId, Info(halves.0, halves.1, c.transcript)))
  }

  method DeriveSessionSecrets(x: Curve, kdf: Kdf, own: Bytes, peer: Bytes, c: Context)
    returns (r: Result<Bytes, Refusal>)
    ensures var input := SecretInput(x, own, peer, c); if input.Ok? then r == Ok(kdf(input.value))
            else r == Err(input.error)
  {
    if |peer| != X25519_KEY_BYTES {
      return Err(PeerKeyLength);
    }
    if |own| != X25519_KEY_BYTES {
      return Err(OwnKeyLength);
    }
    if peer[31] >= 0x80 {
      return Err(NonCanonical);
    }
    if c.sessionId == [] {
      return Err(EmptySession);
    }
    var shared := x.shared(own, peer);
    if shared.None? {
      return Err(UnusablePoint);
    }
    var zero := IsAllZero(shared.value);
    if zero {
      return Err(Degenerate);
    }
    var ownPublic := x.publicKey(own);
    if ownPublic == peer {
      return Err(Reflection);
    }
    hide INFO_CONTENT_KEY, LexBefore;
    var less := LexLess(ownPublic, peer);
    var first, second := if less then ownPublic else peer, if less then peer else ownPublic;
    var ikm := new Byte[|shared.value| + |c.extra|](_ => 0);
    SetBytes(ikm, shared.value, 0);
    SetBytes(ikm, c.extra, |shared.value|);
    assert ikm[..] == ikm[..|shared.value| + |c.extra|] == shared.value + c.extra;
    assert (first, second) == Ordered(ownPublic, peer);
    var info := SessionInfo(first, second, c.transcript);
    r := Ok(kdf(KdfInput(ikm[..], c.sessionId, info)));
  }

  method SessionInfo(first: Bytes, second: Bytes, transcript: Bytes) returns (info: Bytes)
    ensures info == Info(first, second, transcript)
  {
    hide INFO_CONTENT_KEY;
    var n := |INFO_CONTENT_KEY|;
    var out := new Byte[n + |first| + |second| + |transcript|](_ => 0);
    SetBytes(out, INFO_CONTENT_KEY, 0);
    SetBytes(out, first, n);
    SetBytes(out, second, n + |first|);
    SetBytes(out, transcript, n + |first| + |second|);
    assert out[..] == out[..n + |first| + |second| + |transcript|];
    Grouped(INFO_CONTENT_KEY, first, second, transcript);
    info := out[..];
  }

  /** The two ends of one exchange derive from the same input, or both refuse for the same reason. */
  lemma BothSidesAgree(x: Curve, s: Bytes, t: Bytes, c: Context)
    requires IsX25519(x) && |s| == X25519_KEY_BYTES && |t| == X25519_KEY_BYTES
    ensures SecretInput(x, s, x.publicKey(t), c) == SecretInput(x, t, x.publicKey(s), c)
  {
    hide INFO_CONTENT_KEY, LexBefore;
    OrderedSymmetric(x.publicKey(s), x.publicKey(t));
  }

  /** They refuse exactly on an empty session, a refused or zero exchange, or equal public keys. */
  lemma HonestSidesRefuseExactly(x: Curve, s: Bytes, t: Bytes, c: Context)
    requires IsX25519(x) && |s| == X25519_KEY_BYTES && |t| == X25519_KEY_BYTES
    ensures SecretInput(x, s, x.publicKey(t), c).Ok? <==>
            c.sessionId != [] && x.shared(s, x.publicKey(t)).Some? && !AllZero(x.shared(s, x.publicKey(t)).value) &&
            x.publicKey(s) != x.publicKey(t)
  {
    hide Info, Ordered;
  }

  /**
   The input of the derivation tells the whole exchange: session, shared secret, extra secret, both keys and
   transcript.
   */
  lemma InputTellsTheExchange(x: Curve, own: Bytes, peer: Bytes, c: Context, own': Bytes, peer': Bytes, c': Context)
    requires IsX25519(x) && SecretInput(x, own, peer, c).Ok? &&
             SecretInput(x, own, peer, c) == SecretInput(x, own', peer', c')
    ensures c == c' && x.shared(own, peer) == x.shared(own', peer')
    ensures {x.publicKey(own), peer} == {x.publicKey(own'), peer'}
  {
    hide INFO_CONTENT_KEY, LexBefore;
    var shared, shared' := x.shared(own, peer).value, x.shared(own', peer').value;
    SplitEqual(shared, c.extra, shared', c'.extra);
    var h, h' := Ordered(x.publicKey(own), peer), Ordered(x.publicKey(own'), peer');
    SplitEqual(INFO_CONTENT_KEY, h.0 + (h.1 + c.transcript), INFO_CONTENT_KEY, h'.0 + (h'.1 + c'.transcript));
    SplitEqual(h.0, h.1 + c.transcript, h'.0, h'.1 + c'.transcript);
    SplitEqual(h.1, c.transcript, h'.1, c'.transcript);
  }

  // ----- the session salt

  datatype SaltRefusal = PeerLength | PeerZero | OwnLength | OwnZero | Reflected

  function SaltInput(ours: Bytes, theirs: Bytes): Result<KdfInput, SaltRefusal> {
    if |theirs| != SALT_CONTRIBUTION_BYTES then Err(PeerLength)
    else if AllZero(theirs) then Err(PeerZero)
    else if |ours| != SALT_CONTRIBUTION_BYTES then Err(OwnLength)
    else if AllZero(ours) then Err(OwnZero)
    else if ours == theirs then Err(Reflected)
    else
      var halves := Ordered(ours, theirs);
      Ok(KdfInput(halves.0 + halves.1, [], INFO_SESSION_SALT))
  }

  method DeriveSessionSalt(kdf: Kdf, ours: Bytes, theirs: Bytes) returns (r: Result<Bytes, SaltRefusal>)
    ensures var input := SaltInput(ours, theirs); if input.Ok? then r == Ok(kdf(input.value)) else r == Err(input.error)
  {
    if |theirs| != SALT_CONTRIBUTION_BYTES {
      return Err(PeerLength);
    }
    var zero := IsAllZero(theirs);
    if zero {
      return Err(PeerZero);
    }
    if |ours| != SALT_CONTRIBUTION_BYTES {
      return Err(OwnLength);
    }
    zero := IsAllZero(ours);
    if zero {
      return Err(OwnZero);
    }
    if ours == theirs {
      return Err(Reflected);
    }
    hide INFO_SESSION_SALT, LexBefore;
    var less := LexLess(ours, theirs);
    var first, second := if less then ours else theirs, if less then theirs else ours;
    var ikm := new Byte[|first| + |second|](_ => 0);
    SetBytes(ikm, first, 0);
    SetBytes(ikm, second, |first|);
    assert ikm[..] == ikm[..|first| + |second|] == first + second;
    assert (first, second) == Ordered(ours, theirs);
    r := Ok(kdf(KdfInput(ikm[..], [], INFO_SESSION_SALT)));
  }

  /**
   Both sides derive the salt from the same input or both refuse; they refuse exactly if a contribution is unfit or
   the two are equal.
   */
  lemma SaltIsSymmetric(a: Bytes, b: Bytes)
    ensures SaltInput(a, b).Ok? == SaltInput(b, a).Ok?
    ensures SaltInput(a, b).Ok? ==> SaltInput(a, b) == SaltInput(b, a)
    ensures SaltInput(a, b).Ok? <==>
            |a| == SALT_CONTRIBUTION_BYTES && |b| == SALT_CONTRIBUTION_BYTES && !AllZero(a) && !AllZero(b) && a != b
  {
    hide LexBefore, INFO_SESSION_SALT;
    OrderedSymmetric(a, b);
  }

  /** The salt's input tells both contributions. */
  lemma SaltTellsContributions(a: Bytes, b: Bytes, c: Bytes, d: Bytes)
    requires SaltInput(a, b).Ok? && SaltInput(a, b) == SaltInput(c, d)
    ensures {a, b} == {c, d}
  {
    hide LexBefore, INFO_SESSION_SALT;
    var h, k := Ordered(a, b), Ordered(c, d);
    SplitEqual(h.0, h.1, k.0, k.1);
  }

  // ----- destroying the ephemeral

  /** The secret's buffer is overwritten in place. */
  method DestroySessionEphemeral(secret: array<Byte>)
    modifies secret
    ensures AllZero(secret[..])
  {
    for i := 0 to secret.Length
      invariant forall j :: 0 <= j < i ==> secret[j] == 0
    {
      secret[i] := 0;
    }
  }
}
