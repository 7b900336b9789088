/**
 The byte strings that get signed: each builder's layout, that no two different messages are the same bytes, of one
 kind or of two, and what a verified signature therefore says.
 */
module SigningMessages {
  import opened ByteStrings
  import opened Hashing
  import opened JsonText
  import opened Utf8
  import opened Wrappers

  // ----- labels, as the bytes of their ASCII text

  const EPHEMERAL_LABEL: Bytes := [99, 101, 108, 108, 111, 47, 115, 101, 115, 115, 105, 111, 110, 47, 118, 49, 47, 101,
      112, 104, 101, 109, 101, 114, 97, 108]
  const DELIVERY_ACK_LABEL: Bytes := [99, 101, 108, 108, 111, 47, 115, 101, 115, 115, 105, 111, 110, 47, 118, 49, 47,
      100, 101, 108, 105, 118, 101, 114, 121, 45, 97, 99, 107]
  const KEY_BINDING_LABEL: Bytes := [99, 101, 108, 108, 111, 45, 107, 101, 121, 45, 98, 105, 110, 100, 105, 110, 103,
      45, 118, 49]
  const RELAY_ORDER_LABEL: Bytes := [67, 69, 76, 76, 79, 45, 82, 69, 76, 65, 89, 45, 79, 82, 68, 69, 82, 45, 118, 49]

  const PEER_AUTH_LABEL: Text := [99, 101, 108, 108, 111, 45, 97, 101, 45, 112, 101, 101, 114, 45, 97, 117, 116, 104,
      45, 118, 49]
  const CREDENTIAL_LABEL: Text := [99, 101, 108, 108, 111, 45, 100, 97, 101, 109, 111, 110, 45, 99, 114, 101, 100, 101,
      110, 116, 105, 97, 108, 45, 118, 49, 10]
  const REGISTRATION_LABEL: Text := [99, 101, 108, 108, 111, 45, 100, 97, 101, 109, 111, 110, 45, 114, 101, 103, 105,
      115, 116, 101, 114, 45, 118, 49, 10]
  const PAIRING_POLL_LABEL: Text := [99, 101, 108, 108, 111, 45, 112, 97, 105, 114, 105, 110, 103, 45, 112, 111, 108,
      108, 45, 118, 49, 10]

  const ACCOUNT_ID: Text := [97, 99, 99, 111, 117, 110, 116, 95, 105, 100]
  const DAEMON_PUBKEY: Text := [100, 97, 101, 109, 111, 110, 95, 112, 117, 98, 107, 101, 121]
  const ISSUED_AT: Text := [105, 115, 115, 117, 101, 100, 95, 97, 116]
  const NONCE: Text := [110, 111, 110, 99, 101]
  const VERSION: Text := [118]

  const NEWLINE: Unit := 10

  // ----- messages

  datatype Message =
    | Ephemeral(sessionId: Bytes, public: Bytes)
    | DeliveryAck(sessionId: Bytes, contentHash: Bytes)
    | KeyBinding(kLocal: Bytes, group: Bytes)
    | PeerAuth(nodeIdA: Text, nodeIdB: Text, peerIdA: Text, peerIdB: Text, nonceA: Text, nonceB: Text, timestamp: Text)
    | Credential(daemonPubkey: Text, accountId: Text, nonce: Text, issuedAt: Text)
    | Registration(agentPubkey: Text, credentialNonce: Text)
    | PairingPoll(code: Text, unixSeconds: nat)
    | RelayOrder(session: Bytes, leaf: Bytes, sequence: int, root: Bytes, milliseconds: nat)

  function Line(field: Text, rest: Text): Text {
    field + ([NEWLINE] + rest)
  }

  function Decimal(n: nat): Text {
    if n < 10 then [48 + n as Unit] else Decimal(n / 10) + [48 + (n % 10) as Unit]
  }

  /** The credential's fields in key order. */
  function CredentialBody(m: Message): Json
    requires m.Credential?
  {
    Obj(Member(ACCOUNT_ID, Str(m.accountId),
        Member(DAEMON_PUBKEY, Str(m.daemonPubkey), Member(ISSUED_AT, Str(m.issuedAt),
      Member(NONCE, Str(m.nonce), Member(VERSION, Num([49]), NoMembers))))))
  }

  function PeerAuthText(m: Message): Text
    requires m.PeerAuth?
  {
    [NEWLINE] + Line(m.nodeIdA,
        Line(m.nodeIdB, Line(m.peerIdA, Line(m.peerIdB, Line(m.nonceA, Line(m.nonceB, m.timestamp))))))
  }

  /** The bytes signed; for a relay's ordering statement, the bytes hashed before signing. */
  function Signed(m: Message): Bytes {
    match m
    case Ephemeral(sessionId, public) => EPHEMERAL_LABEL + (U32(|sessionId|) + (sessionId + public))
    case DeliveryAck(sessionId, contentHash) => DELIVERY_ACK_LABEL + (U32(|sessionId|) + (sessionId + contentHash))
    case KeyBinding(kLocal, group) => KEY_BINDING_LABEL + ([0] + (kLocal + group))
    case PeerAuth(_, _, _, _, _, _, _) => Encode(PEER_AUTH_LABEL + PeerAuthText(m))
    case Credential(_, _, _, _) => Encode(CREDENTIAL_LABEL + Write(CredentialBody(m), []))
    case Registration(agentPubkey, nonce) => Encode(REGISTRATION_LABEL + Line(agentPubkey, nonce))
    case PairingPoll(code, unixSeconds) => Encode(PAIRING_POLL_LABEL + Line(code, Decimal(unixSeconds)))
    case RelayOrder(session, leaf, sequence, root, milliseconds) =>
      RELAY_ORDER_LABEL + (session + (leaf + (U32(sequence % U32_SIZE) + (root + U64(milliseconds % U64_SIZE)))))
  }

  predicate OneLine(field: Text) {
    NEWLINE !in field && WellFormed(field)
  }

  predicate IsHex64(s: Text) {
    |s| == 64 && forall i :: 0 <= i < |s| ==> 48 <= s[i] <= 57 || 65 <= s[i] <= 70 || 97 <= s[i] <= 102
  }

  /** What the builders accept, and the text they are meant for: no stray surrogates, no newline inside a field. */
  predicate InDomain(m: Message) {
    match m
    case Ephemeral(sessionId, _) => |sessionId| < U32_SIZE
    case DeliveryAck(sessionId, _) => |sessionId| < U32_SIZE
    case KeyBinding(kLocal, group) => |kLocal| == 32 && |group| == 32
    case PeerAuth(nodeIdA, nodeIdB, peerIdA, peerIdB, nonceA, nonceB, timestamp) =>
      OneLine(nodeIdA) && OneLine(nodeIdB) && OneLine(peerIdA) && OneLine(peerIdB) && OneLine(timestamp) &&
      IsHex64(nonceA) && IsHex64(nonceB) && nodeIdA != nodeIdB && peerIdA != peerIdB
    case Credential(_, _, _, _) => true
    case Registration(agentPubkey, nonce) => OneLine(agentPubkey) && WellFormed(nonce)
    case PairingPoll(code, _) => OneLine(code)
    case RelayOrder(session, leaf, sequence, root, milliseconds) =>
      |session| == 16 && |leaf| == 32 && |root| == 32 && 0 <= sequence < U32_SIZE && milliseconds < U64_SIZE
  }

  // ----- the builders

  method SetU32(out: array<Byte>, n: nat, at: nat)
    requires at + 4 <= out.Length
    modifies out
    ensures out[..at + 4] == old(out[..at]) + U32(n)
  {
    var bytes := U32(n);
    out[at] := bytes[0];
    out[at + 1] := bytes[1];
    out[at + 2] := bytes[2];
    out[at + 3] := bytes[3];
  }

  /** A label, a session id behind its length, and the rest. */
  method LabelledMessage(front: Bytes, sessionId: Bytes, rest: Bytes) returns (out: array<Byte>)
    ensures fresh(out) && out[..] == front + (U32(|sessionId|) + (sessionId + rest))
  {
    hide U32;
    var o := |front|;
    out := new Byte[|front| + 4 + |sessionId| + |rest|](_ => 0);
    SetBytes(out, front, 0);
    SetU32(out, |sessionId|, o);
    o := o + 4;
    SetBytes(out, sessionId, o);
    o := o + |sessionId|;
    SetBytes(out, rest, o);
    assert out[..] == out[..o + |rest|];
    Grouped(front, U32(|sessionId|), sessionId, rest);
  }

  lemma Grouped(a: Bytes, b: Bytes, c: Bytes, d: Bytes)
    ensures [] + a + b + c + d == a + (b + (c + d))
  {
  }

  method EphemeralSigningMessage(sessionId: Bytes, public: Bytes) returns (out: array<Byte>)
    ensures fresh(out) && out[..] == Signed(Ephemeral(sessionId, public))
  {
    hide U32;
    out := LabelledMessage(EPHEMERAL_LABEL, sessionId, public);
  }

  method DeliveryAckSigningMessage(sessionId: Bytes, contentHash: Bytes) returns (out: array<Byte>)
    ensures fresh(out) && out[..] == Signed(DeliveryAck(sessionId, contentHash))
  {
    hide U32;
    out := LabelledMessage(DELIVERY_ACK_LABEL, sessionId, contentHash);
  }

  method BuildKeyBindingTbs(kLocal: Bytes, group: Bytes) returns (r: Result<array<Byte>, string>)
    ensures r.Ok? <==> |kLocal| == 32 && |group| == 32
    ensures r.Ok? ==> fresh(r.value) && r.value[..] == Signed(KeyBinding(kLocal, group))
  {
    if |kLocal| != 32 {
      return Err("k_local pubkey must be 32 bytes");
    }
    if |group| != 32 {
      return Err("group pubkey must be 32 bytes");
    }
    hide KEY_BINDING_LABEL;
    var n := |KEY_BINDING_LABEL|;
    var framed := new Byte[n + 1 + 32 + 32](_ => 0);
    SetBytes(framed, KEY_BINDING_LABEL, 0);
    SetBytes(framed, [0], n);
    SetBytes(framed, kLocal, n + 1);
    SetBytes(framed, group, n + 1 + 32);
    assert framed[..] == framed[..n + 33 + 32];
    Grouped(KEY_BINDING_LABEL, [0], kLocal, group);
    return Ok(framed);
  }

  ghost predicate NoNewlines(m: Message)
    requires m.PeerAuth?
  {
    && NEWLINE !in m.nodeIdA && NEWLINE !in m.nodeIdB && NEWLINE !in m.peerIdA && NEWLINE !in m.peerIdB
    && NEWLINE !in m.timestamp
  }

  /** What the builder demands: no newline in a field, two nonces of 64 hexadecimal digits, and two different sides. */
  ghost predicate PeerAuthAccepted(m: Message)
    requires m.PeerAuth?
  {
    NoNewlines(m) && IsHex64(m.nonceA) && IsHex64(m.nonceB) && m.nodeIdA != m.nodeIdB && m.peerIdA != m.peerIdB
  }

  datatype PeerAuthRefusal = NewlineInField | BadNonce | OneSide

  /** The builder's checks; text with stray surrogates passes them. */
  function BuildAePeerAuthTbs(m: Message): (r: Result<Bytes, PeerAuthRefusal>)
    requires m.PeerAuth?
    ensures r.Ok? <==> PeerAuthAccepted(m)
    ensures r.Ok? ==> r.value == Signed(m)
    ensures r == Err(NewlineInField) <==> !NoNewlines(m)
    ensures r == Err(BadNonce) <==> NoNewlines(m) && !(IsHex64(m.nonceA) && IsHex64(m.nonceB))
  {
    if NEWLINE in m.nodeIdA || NEWLINE in m.nodeIdB || NEWLINE in m.peerIdA || NEWLINE in m.peerIdB ||
        NEWLINE in m.timestamp then
      Err(NewlineInField)
    else if !IsHex64(m.nonceA) || !IsHex64(m.nonceB) then Err(BadNonce)
    else if m.nodeIdA == m.nodeIdB || m.peerIdA == m.peerIdB then Err(OneSide)
    else Ok(Signed(m))
  }

  method SetU64(out: array<Byte>, n: nat)
    requires out.Length == 8 && n < U64_SIZE
    modifies out
    ensures out[..] == U64(n)
  {
    hide U32;
    SetU32(out, n / U32_SIZE, 0);
    SetU32(out, n % U32_SIZE, 4);
    assert out[..] == out[..8];
    assert out[..0] == [];
  }

  datatype RelayRefusal = BadSession | BadHash | BadRoot | BadTime

  /** A relay's ordering statement, hashed: fields of the wrong width and times outside 64 bits are refused. */
  method BuildRelayAckTbs(sha: Hash, session: Bytes, leaf: Bytes, sequence: int, root: Bytes, timestamp: int)
    returns (r: Result<Bytes, RelayRefusal>)
    ensures r.Ok? <==> |session| == 16 && |leaf| == 32 && |root| == 32 && 0 <= timestamp < U64_SIZE
    ensures r.Ok? ==> r.value == sha(Signed(RelayOrder(session, leaf, sequence, root, timestamp)))
    ensures r == Err(BadTime) <==> |session| == 16 && |leaf| == 32 && |root| == 32 && !(0 <= timestamp < U64_SIZE)
  {
    if |session| != 16 {
      return Err(BadSession);
    }
    if |leaf| != 32 {
      return Err(BadHash);
    }
    if |root| != 32 {
      return Err(BadRoot);
    }
    if timestamp < 0 || timestamp >= U64_SIZE {
      return Err(BadTime);
    }
    hide Signed;
    var preimage := RelayPreimage(session, leaf, sequence, root, timestamp);
    return Ok(sha(preimage));
  }

  method RelayPreimage(session: Bytes, leaf: Bytes, sequence: int, root: Bytes, timestamp: nat)
    returns (preimage: Bytes)
    requires timestamp < U64_SIZE
    ensures preimage == Signed(RelayOrder(session, leaf, sequence, root, timestamp))
  {
    hide U32, U64, RELAY_ORDER_LABEL;
    var seqBuf := new Byte[4](_ => 0);
    SetU32(seqBuf, sequence % U32_SIZE, 0);
    var written := seqBuf[..];
    assert written == U32(sequence % U32_SIZE) by {
      assert seqBuf[..0] == [] && seqBuf[..] == seqBuf[..4];
    }
    var tsBuf := new Byte[8](_ => 0);
    SetU64(tsBuf, timestamp);
    var time := tsBuf[..];
    SmallTime(timestamp);
    preimage := RELAY_ORDER_LABEL + session + leaf + written + root + time;
    RelayGrouped(session, leaf, written, root, time);
  }

  lemma SmallTime(n: nat)
    requires n < U64_SIZE
    ensures n % U64_SIZE == n
  {
  }

  lemma RelayGrouped(session: Bytes, leaf: Bytes, sequence: Bytes, root: Bytes, time: Bytes)
    ensures RELAY_ORDER_LABEL + session + leaf + sequence + root + time ==
            RELAY_ORDER_LABEL + (session + (leaf + (sequence + (root + time))))
  {
    hide RELAY_ORDER_LABEL;
    AppendAssociative(RELAY_ORDER_LABEL + session + leaf + sequence, root, time);
    AppendAssociative(RELAY_ORDER_LABEL + session + leaf, sequence, root + time);
    AppendAssociative(RELAY_ORDER_LABEL + session, leaf, sequence + (root + time));
    AppendAssociative(RELAY_ORDER_LABEL, session, leaf + (sequence + (root + time)));
  }

  // ----- kinds are told apart by their labels

  ghost function Kind(m: Message): nat {
    match m
    case Ephemeral(_, _) => 0
    case DeliveryAck(_, _) => 1
    case KeyBinding(_, _) => 2
    case PeerAuth(_, _, _, _, _, _, _) => 3
    case Credential(_, _, _, _) => 4
    case Registration(_, _) => 5
    case PairingPoll(_, _) => 6
    case RelayOrder(_, _, _, _, _) => 7
  }

  /** The kind, read off five bytes. */
  ghost function KindIn(b: Bytes): nat
    requires |b| >= 18
  {
    if b[0] == 67 then 7
    else if b[5] == 47 then if b[17] == 101 then 0 else 1
    else if b[6] == 107 then 2
    else if b[6] == 97 then 3
    else if b[6] == 112 then 6
    else if b[13] == 99 then 4
    else 5
  }

  lemma LabelBytes(front: Text, rest: Text)
    requires IsAscii(front)
    ensures Encode(front + rest) == AsciiBytes(front) + Encode(rest)
  {
    AsciiFront(front, rest);
  }

  lemma PeerAuthKind(rest: Text)
    ensures var t := Encode(PEER_AUTH_LABEL + rest); |t| >= 18 && KindIn(t) == 3
  {
    hide Encode;
    LabelBytes(PEER_AUTH_LABEL, rest);
  }

  lemma CredentialKind(rest: Text)
    ensures var t := Encode(CREDENTIAL_LABEL + rest); |t| >= 18 && KindIn(t) == 4
  {
    hide Encode;
    LabelBytes(CREDENTIAL_LABEL, rest);
  }

  lemma RegistrationKind(rest: Text)
    ensures var t := Encode(REGISTRATION_LABEL + rest); |t| >= 18 && KindIn(t) == 5
  {
    hide Encode;
    LabelBytes(REGISTRATION_LABEL, rest);
  }

  lemma PairingPollKind(rest: Text)
    ensures var t := Encode(PAIRING_POLL_LABEL + rest); |t| >= 18 && KindIn(t) == 6
  {
    hide Encode;
    LabelBytes(PAIRING_POLL_LABEL, rest);
  }

  lemma KindReadBack(m: Message)
    ensures |Signed(m)| >= 18 && KindIn(Signed(m)) == Kind(m)
  {
    match m
    case PeerAuth(_, _, _, _, _, _, _) =>
      PeerAuthKind(PeerAuthText(m));
      hide Encode, KindIn, PeerAuthText;
    case Credential(_, _, _, _) =>
      CredentialKind(Write(CredentialBody(m), []));
      hide Encode, KindIn, Write;
    case Registration(agentPubkey, nonce) =>
      RegistrationKind(Line(agentPubkey, nonce));
      hide Encode, KindIn, Line;
    case PairingPoll(code, unixSeconds) =>
      PairingPollKind(Line(code, Decimal(unixSeconds)));
      hide Encode, KindIn, Line;
    case _ =>
      hide Encode, U32, Write, Decimal;
  }

  // ----- within a kind

  lemma SessionLayout(a: Bytes, x: Bytes, b: Bytes, y: Bytes)
    requires |a| < U32_SIZE && |b| < U32_SIZE && U32(|a|) + (a + x) == U32(|b|) + (b + y)
    ensures a == b && x == y
  {
    hide U32, FromU32;
    SplitEqual(U32(|a|), a + x, U32(|b|), b + y);
    U32RoundTrip(|a|);
    U32RoundTrip(|b|);
    SplitEqual(a, x, b, y);
  }

  lemma LineLonger(a: Text, x: Text, b: Text, y: Text)
    requires NEWLINE !in b && Line(a, x) == Line(b, y)
    ensures |a| >= |b|
  {
    var t := Line(a, x);
    assert t[|a|] == NEWLINE;
    assert forall i :: 0 <= i < |b| ==> t[i] == b[i];
  }

  lemma LineInjective(a: Text, x: Text, b: Text, y: Text)
    requires NEWLINE !in a && NEWLINE !in b && Line(a, x) == Line(b, y)
    ensures a == b && x == y
  {
    LineLonger(a, x, b, y);
    LineLonger(b, y, a, x);
    SplitEqual(a, [NEWLINE] + x, b, [NEWLINE] + y);
    SplitEqual([NEWLINE], x, [NEWLINE], y);
  }

  /**
   The second of two fields begins inside the first of another two: the newline between them is one of the first
   field's.
   */
  ghost predicate Shifted(a: Text, x: Text, b: Text, y: Text) {
    exists z :: b == Line(a, z) && x == Line(z, y)
  }

  /** Two fields joined by a newline are told apart up to which newline joins them. */
  lemma LineExactly(a: Text, x: Text, b: Text, y: Text)
    ensures Line(a, x) == Line(b, y) <==> (a == b && x == y) || Shifted(a, x, b, y) || Shifted(b, y, a, x)
  {
    forall z | b == Line(a, z) && x == Line(z, y)
      ensures Line(a, x) == Line(b, y)
    {
      LineNested(a, z, y);
    }
    forall z | a == Line(b, z) && y == Line(z, x)
      ensures Line(a, x) == Line(b, y)
    {
      LineNested(b, z, x);
    }
    if Line(a, x) == Line(b, y) {
      if |a| < |b| {
        LineShifts(a, x, b, y);
      } else if |b| < |a| {
        LineShifts(b, y, a, x);
      } else {
        SplitEqual(a, [NEWLINE] + x, b, [NEWLINE] + y);
        SplitEqual([NEWLINE], x, [NEWLINE], y);
      }
    }
  }

  lemma LineNested(a: Text, z: Text, y: Text)
    ensures Line(Line(a, z), y) == Line(a, Line(z, y))
  {
  }

  lemma LineShifts(a: Text, x: Text, b: Text, y: Text)
    requires Line(a, x) == Line(b, y) && |a| < |b|
    ensures Shifted(a, x, b, y)
  {
    var t, z := Line(a, x), b[|a| + 1..];
    assert a == t[..|a|] && b == t[..|b|] && t[|a|] == NEWLINE && x == t[|a| + 1..] && t[|b|] == NEWLINE &&
        y == t[|b| + 1..];
    assert b == Line(a, z);
    assert x == Line(z, y);
  }

  lemma RepairLine(field: Text, rest: Text)
    ensures Repair(Line(field, rest)) == Line(Repair(field), Repair(rest))
  {
    RepairConcat([NEWLINE], []);
    RepairConcat(field, [NEWLINE] + rest);
    RepairNewline(rest);
  }

  lemma RepairNewline(rest: Text)
    ensures Repair([NEWLINE] + rest) == [NEWLINE] + Repair(rest)
  {
    assert ([NEWLINE] + rest)[1..] == rest;
  }

  /**
   Text of one kind: equal bytes exactly for text that is equal after the label once stray surrogates are replaced.
   */
  lemma TextExactly(front: Text, s: Text, t: Text)
    requires IsAscii(front)
    ensures Encode(front + s) == Encode(front + t) <==> Repair(s) == Repair(t)
  {
    LabelBytes(front, s);
    LabelBytes(front, t);
    EncodeExactly(s, t);
    if Encode(front + s) == Encode(front + t) {
      SplitEqual(AsciiBytes(front), Encode(s), AsciiBytes(front), Encode(t));
    }
  }

  lemma {:induction false} DecimalInjective(m: nat, n: nat)
    requires Decimal(m) == Decimal(n)
    ensures m == n
  {
    DecimalNonEmpty(m / 10);
    DecimalNonEmpty(n / 10);
    if m >= 10 && n >= 10 {
      SplitEqual(Decimal(m)[..|Decimal(m)| - 1], [48 + (m % 10) as Unit], Decimal(n)[..|Decimal(n)| - 1],
          [48 + (n % 10) as Unit]);
      assert Decimal(m)[..|Decimal(m)| - 1] == Decimal(m / 10) && Decimal(n)[..|Decimal(n)| - 1] == Decimal(n / 10);
      DecimalInjective(m / 10, n / 10);
      assert [48 + (m % 10) as Unit][0] == [48 + (n % 10) as Unit][0];
    }
  }

  lemma DecimalNonEmpty(n: nat)
    ensures |Decimal(n)| >= 1
  {
  }

  lemma {:induction false} DecimalAscii(n: nat)
    ensures IsAscii(Decimal(n))
  {
    if n >= 10 {
      DecimalAscii(n / 10);
    }
  }

  lemma HexOneLine(s: Text)
    requires IsHex64(s)
    ensures OneLine(s)
  {
    AsciiWellFormed(s);
  }

  /** Text of one kind: equal bytes, equal text after the label. */
  lemma TextAfterLabel(front: Text, s: Text, t: Text)
    requires IsAscii(front) && WellFormed(s) && WellFormed(t) && Encode(front + s) == Encode(front + t)
    ensures s == t
  {
    LabelBytes(front, s);
    LabelBytes(front, t);
    SplitEqual(AsciiBytes(front), Encode(s), AsciiBytes(front), Encode(t));
    EncodeInjective(s, t);
  }

  /** The message with its stray surrogates replaced. */
  function RepairedPeerAuth(m: Message): Message
    requires m.PeerAuth?
  {
    PeerAuth(Repair(m.nodeIdA), Repair(m.nodeIdB), Repair(m.peerIdA), Repair(m.peerIdB), m.nonceA, m.nonceB,
        Repair(m.timestamp))
  }

  lemma HexRepaired(s: Text)
    requires IsHex64(s)
    ensures NEWLINE !in s && Repair(s) == s
  {
    HexOneLine(s);
    RepairWellFormed(s);
  }

  lemma RepairPeerAuthText(m: Message)
    requires m.PeerAuth? && PeerAuthAccepted(m)
    ensures Repair(PeerAuthText(m)) == PeerAuthText(RepairedPeerAuth(m))
  {
    HexRepaired(m.nonceA);
    HexRepaired(m.nonceB);
    hide Repair, Line, IsHex64;
    var t6 := Line(m.nonceB, m.timestamp);
    var t5 := Line(m.nonceA, t6);
    var t4 := Line(m.peerIdB, t5);
    var t3 := Line(m.peerIdA, t4);
    var t2 := Line(m.nodeIdB, t3);
    RepairLine(m.nonceB, m.timestamp);
    RepairLine(m.nonceA, t6);
    RepairLine(m.peerIdB, t5);
    RepairLine(m.peerIdA, t4);
    RepairLine(m.nodeIdB, t3);
    RepairLine(m.nodeIdA, t2);
    RepairNewline(Line(m.nodeIdA, t2));
  }

  /** Newline-joined fields without newlines are read back one by one. */
  lemma PeerAuthTextTells(a: Message, b: Message)
    requires a.PeerAuth? && b.PeerAuth? && NoNewlines(a) && NoNewlines(b) && PeerAuthText(a) == PeerAuthText(b)
    requires NEWLINE !in a.nonceA && NEWLINE !in a.nonceB && NEWLINE !in b.nonceA && NEWLINE !in b.nonceB
    ensures a == b
  {
    hide Line;
    var a6, b6 := Line(a.nonceB, a.timestamp), Line(b.nonceB, b.timestamp);
    var a5, b5 := Line(a.nonceA, a6), Line(b.nonceA, b6);
    var a4, b4 := Line(a.peerIdB, a5), Line(b.peerIdB, b5);
    var a3, b3 := Line(a.peerIdA, a4), Line(b.peerIdA, b4);
    var a2, b2 := Line(a.nodeIdB, a3), Line(b.nodeIdB, b3);
    SplitEqual([NEWLINE], Line(a.nodeIdA, a2), [NEWLINE], Line(b.nodeIdA, b2));
    LineInjective(a.nodeIdA, a2, b.nodeIdA, b2);
    LineInjective(a.nodeIdB, a3, b.nodeIdB, b3);
    LineInjective(a.peerIdA, a4, b.peerIdA, b4);
    LineInjective(a.peerIdB, a5, b.peerIdB, b5);
    LineInjective(a.nonceA, a6, b.nonceA, b6);
    LineInjective(a.nonceB, a.timestamp, b.nonceB, b.timestamp);
  }

  lemma RepairedNoNewlines(m: Message)
    requires m.PeerAuth? && NoNewlines(m)
    ensures NoNewlines(RepairedPeerAuth(m))
  {
    RepairKeeps(m.nodeIdA, NEWLINE);
    RepairKeeps(m.nodeIdB, NEWLINE);
    RepairKeeps(m.peerIdA, NEWLINE);
    RepairKeeps(m.peerIdB, NEWLINE);
    RepairKeeps(m.timestamp, NEWLINE);
  }

  /**
   Of what the builder accepts, two are the same bytes if and only if they are equal once stray surrogates are
   replaced.
   */
  lemma PeerAuthExactly(a: Message, b: Message)
    requires a.PeerAuth? && b.PeerAuth? && PeerAuthAccepted(a) && PeerAuthAccepted(b)
    ensures Signed(a) == Signed(b) <==> RepairedPeerAuth(a) == RepairedPeerAuth(b)
  {
    TextExactly(PEER_AUTH_LABEL, PeerAuthText(a), PeerAuthText(b));
    RepairPeerAuthText(a);
    RepairPeerAuthText(b);
    RepairedNoNewlines(a);
    RepairedNoNewlines(b);
    HexRepaired(a.nonceA);
    HexRepaired(a.nonceB);
    HexRepaired(b.nonceA);
    HexRepaired(b.nonceB);
    hide Encode, Repair, PeerAuthText, PEER_AUTH_LABEL, IsHex64, NoNewlines;
    if PeerAuthText(RepairedPeerAuth(a)) == PeerAuthText(RepairedPeerAuth(b)) {
      PeerAuthTextTells(RepairedPeerAuth(a), RepairedPeerAuth(b));
    }
  }

  lemma PeerAuthInjective(a: Message, b: Message)
    requires a.PeerAuth? && b.PeerAuth? && InDomain(a) && InDomain(b) && Signed(a) == Signed(b)
    ensures a == b
  {
    PeerAuthExactly(a, b);
    RepairInDomain(a);
    RepairInDomain(b);
  }

  lemma RepairInDomain(m: Message)
    requires m.PeerAuth? && InDomain(m)
    ensures RepairedPeerAuth(m) == m
  {
    RepairWellFormed(m.nodeIdA);
    RepairWellFormed(m.nodeIdB);
    RepairWellFormed(m.peerIdA);
    RepairWellFormed(m.peerIdB);
    RepairWellFormed(m.timestamp);
  }

  lemma RepairLone(c: Unit)
    ensures Repair([c]) == [if IsHigh(c) || IsLow(c) then 0xFFFD else c]
  {
    assert [c][1..] == [];
    assert Repair([]) == [];
  }

  /** Peer authentication is not injective on all it accepts: a timestamp with a stray surrogate is that with U+FFFD. */
  lemma StraySurrogatesCollide(m: Message, c: Unit)
    requires m.PeerAuth? && PeerAuthAccepted(m) && (IsHigh(c) || IsLow(c)) && m.timestamp == [c]
    ensures var n := m.(timestamp := [0xFFFD]); m != n && PeerAuthAccepted(n) && Signed(m) == Signed(n)
  {
    var n := m.(timestamp := [0xFFFD]);
    RepairLone(c);
    RepairLone(0xFFFD);
    PeerAuthExactly(m, n);
    hide PeerAuthAccepted, Signed;
  }

  lemma KeysDiffer()
    ensures ACCOUNT_ID != DAEMON_PUBKEY && ACCOUNT_ID != ISSUED_AT && ACCOUNT_ID != NONCE && ACCOUNT_ID != VERSION
    ensures DAEMON_PUBKEY != ISSUED_AT && DAEMON_PUBKEY != NONCE && DAEMON_PUBKEY != VERSION
    ensures ISSUED_AT != NONCE && ISSUED_AT != VERSION && NONCE != VERSION
  {
  }

  lemma SkipKey(key: Text, value: Json, others: Members, name: Text)
    requires key != name && !HasKey(others, name)
    ensures !HasKey(Member(key, value, others), name)
  {
  }

  lemma FiveKeys(k: seq<Text>, v: seq<Json>)
    requires |k| == 5 && |v| == 5 && (forall i, j :: 0 <= i < j < 5 ==> k[i] != k[j]) && forall i :: 0 <= i < 5 ==>
             Valid(v[i])
    ensures Valid(Obj(Member(k[0], v[0],
            Member(k[1], v[1], Member(k[2], v[2], Member(k[3], v[3], Member(k[4], v[4], NoMembers)))))))
  {
    var o5 := Member(k[4], v[4], NoMembers);
    var o4 := Member(k[3], v[3], o5);
    var o3 := Member(k[2], v[2], o4);
    var o2 := Member(k[1], v[1], o3);
    forall i | 0 <= i < 4
      ensures !HasKey(o5, k[i]) && (i < 3 ==> !HasKey(o4, k[i])) && (i < 2 ==> !HasKey(o3, k[i])) &&
              (i < 1 ==> !HasKey(o2, k[i]))
    {
      SkipKey(k[4], v[4], NoMembers, k[i]);
      if i < 3 {
        SkipKey(k[3], v[3], o5, k[i]);
      }
      if i < 2 {
        SkipKey(k[2], v[2], o4, k[i]);
      }
      if i < 1 {
        SkipKey(k[1], v[1], o3, k[i]);
      }
    }
    hide HasKey;
    assert ValidMembers(o5);
    assert ValidMembers(o4);
    assert ValidMembers(o3);
    assert ValidMembers(o2);
  }

  lemma CredentialBodyValid(m: Message)
    requires m.Credential?
    ensures Valid(CredentialBody(m))
  {
    KeysDiffer();
    FiveKeys([ACCOUNT_ID, DAEMON_PUBKEY, ISSUED_AT, NONCE, VERSION],
             [Str(m.accountId), Str(m.daemonPubkey), Str(m.issuedAt), Str(m.nonce), Num([49])]);
  }

  lemma CredentialBodyTells(a: Message, b: Message)
    requires a.Credential? && b.Credential? && CredentialBody(a) == CredentialBody(b)
    ensures a == b
  {
    hide ACCOUNT_ID, DAEMON_PUBKEY, ISSUED_AT, NONCE, VERSION;
  }

  lemma CredentialInjective(a: Message, b: Message)
    requires a.Credential? && b.Credential? && Signed(a) == Signed(b)
    ensures a == b
  {
    var j, k := CredentialBody(a), CredentialBody(b);
    CredentialBodyValid(a);
    CredentialBodyValid(b);
    WriteWellFormed(j, []);
    WriteWellFormed(k, []);
    hide Encode, WellFormed, Write, Valid, CredentialBody;
    TextAfterLabel(CREDENTIAL_LABEL, Write(j, []), Write(k, []));
    WriteInjective(j, [], k, []);
    CredentialBodyTells(a, b);
  }

  /**
   Registration proofs of any text are the same bytes if and only if, stray surrogates replaced, their fields are
   equal or the newline that ends one's agent is another newline of the other.
   */
  lemma RegistrationExactly(a: Message, b: Message)
    requires a.Registration? && b.Registration?
    ensures var (k, x, l, y) := (Repair(a.agentPubkey), Repair(a.credentialNonce), Repair(b.agentPubkey),
            Repair(b.credentialNonce));
            Signed(a) == Signed(b) <==> (k == l && x == y) || Shifted(k, x, l, y) || Shifted(l, y, k, x)
  {
    TextExactly(REGISTRATION_LABEL, Line(a.agentPubkey, a.credentialNonce), Line(b.agentPubkey, b.credentialNonce));
    RepairLine(a.agentPubkey, a.credentialNonce);
    RepairLine(b.agentPubkey, b.credentialNonce);
    LineExactly(Repair(a.agentPubkey), Repair(a.credentialNonce), Repair(b.agentPubkey), Repair(b.credentialNonce));
    hide Encode, Repair, Line, Shifted, REGISTRATION_LABEL;
  }

  lemma RegistrationInjective(a: Message, b: Message)
    requires a.Registration? && b.Registration? && InDomain(a) && InDomain(b) && Signed(a) == Signed(b)
    ensures a == b
  {
    RegistrationExactly(a, b);
    RepairWellFormed(a.agentPubkey);
    RepairWellFormed(a.credentialNonce);
    RepairWellFormed(b.agentPubkey);
    RepairWellFormed(b.credentialNonce);
    NotShifted(a.agentPubkey, a.credentialNonce, b.agentPubkey, b.credentialNonce);
    NotShifted(b.agentPubkey, b.credentialNonce, a.agentPubkey, a.credentialNonce);
    hide Repair, Encode, WellFormed;
  }

  lemma NotShifted(a: Text, x: Text, b: Text, y: Text)
    requires NEWLINE !in b || NEWLINE !in x
    ensures !Shifted(a, x, b, y)
  {
    forall z
      ensures Line(a, z)[|a|] == NEWLINE && Line(z, y)[|z|] == NEWLINE
    {
    }
  }

  /**
   Pairing polls of any text are the same bytes if and only if, stray surrogates replaced, code and time are equal.
   */
  lemma PairingPollExactly(a: Message, b: Message)
    requires a.PairingPoll? && b.PairingPoll?
    ensures Signed(a) == Signed(b) <==> Repair(a.code) == Repair(b.code) && a.unixSeconds == b.unixSeconds
  {
    var d, e := Decimal(a.unixSeconds), Decimal(b.unixSeconds);
    DecimalRepaired(a.unixSeconds);
    DecimalRepaired(b.unixSeconds);
    TextExactly(PAIRING_POLL_LABEL, Line(a.code, d), Line(b.code, e));
    RepairLine(a.code, d);
    RepairLine(b.code, e);
    LineExactly(Repair(a.code), d, Repair(b.code), e);
    NotShifted(Repair(a.code), d, Repair(b.code), e);
    NotShifted(Repair(b.code), e, Repair(a.code), d);
    hide Encode, Repair, Line, Shifted, PAIRING_POLL_LABEL, Decimal;
    if d == e {
      DecimalInjective(a.unixSeconds, b.unixSeconds);
    }
  }

  lemma DecimalRepaired(n: nat)
    ensures NEWLINE !in Decimal(n) && Repair(Decimal(n)) == Decimal(n)
  {
    DecimalDigits(n);
    DecimalAscii(n);
    AsciiWellFormed(Decimal(n));
    RepairWellFormed(Decimal(n));
  }

  lemma {:induction false} DecimalDigits(n: nat)
    ensures NEWLINE !in Decimal(n)
  {
    if n >= 10 {
      DecimalDigits(n / 10);
    }
  }

  lemma PairingPollInjective(a: Message, b: Message)
    requires a.PairingPoll? && b.PairingPoll? && InDomain(a) && InDomain(b) && Signed(a) == Signed(b)
    ensures a == b
  {
    PairingPollExactly(a, b);
    RepairWellFormed(a.code);
    RepairWellFormed(b.code);
  }

  /** Fields of the widths the builder demands. */
  predicate RelayAccepted(m: Message)
    requires m.RelayOrder?
  {
    |m.session| == 16 && |m.leaf| == 32 && |m.root| == 32 && m.milliseconds < U64_SIZE
  }

  /**
   Of what the builder accepts, two are the same bytes if and only if all fields agree, the positions up to multiples
   of 2^32.
   */
  lemma RelayOrderExactly(a: Message, b: Message)
    requires a.RelayOrder? && b.RelayOrder? && RelayAccepted(a) && RelayAccepted(b)
    ensures Signed(a) == Signed(b) <==>
            a.session == b.session && a.leaf == b.leaf && a.root == b.root && a.milliseconds == b.milliseconds &&
            a.sequence % U32_SIZE == b.sequence % U32_SIZE
  {
    hide U32, U64;
    if Signed(a) == Signed(b) {
      var at, bt := U64(a.milliseconds % U64_SIZE), U64(b.milliseconds % U64_SIZE);
      var ar, br := a.root + at, b.root + bt;
      var aq, bq := U32(a.sequence % U32_SIZE) + ar, U32(b.sequence % U32_SIZE) + br;
      SplitEqual(RELAY_ORDER_LABEL, a.session + (a.leaf + aq), RELAY_ORDER_LABEL, b.session + (b.leaf + bq));
      SplitEqual(a.session, a.leaf + aq, b.session, b.leaf + bq);
      SplitEqual(a.leaf, aq, b.leaf, bq);
      SplitEqual(U32(a.sequence % U32_SIZE), ar, U32(b.sequence % U32_SIZE), br);
      SplitEqual(a.root, at, b.root, bt);
      RoundTripBelow(a.sequence % U32_SIZE);
      RoundTripBelow(b.sequence % U32_SIZE);
      U64Injective(a.milliseconds, b.milliseconds);
    }
  }

  lemma RelayOrderInjective(a: Message, b: Message)
    requires a.RelayOrder? && b.RelayOrder? && InDomain(a) && InDomain(b) && Signed(a) == Signed(b)
    ensures a == b
  {
    RelayOrderExactly(a, b);
    SmallRemainder(a.sequence);
    SmallRemainder(b.sequence);
    hide Signed;
  }

  lemma SmallRemainder(n: int)
    requires 0 <= n < U32_SIZE
    ensures n % U32_SIZE == n
  {
  }

  /** Two messages in their domains with the same bytes are the same message: of one kind, and in every field. */
  lemma SignedInjective(a: Message, b: Message)
    requires InDomain(a) && InDomain(b) && Signed(a) == Signed(b)
    ensures a == b
  {
    KindReadBack(a);
    KindReadBack(b);
    hide U32, Encode, Write, InDomain;
    match a
    case Ephemeral(sessionId, public) =>
      SplitEqual(EPHEMERAL_LABEL, U32(|sessionId|) + (sessionId + public), EPHEMERAL_LABEL,
          U32(|b.sessionId|) + (b.sessionId + b.public));
      SessionDomain(a, b);
      SessionLayout(sessionId, public, b.sessionId, b.public);
    case DeliveryAck(sessionId, contentHash) =>
      SplitEqual(DELIVERY_ACK_LABEL, U32(|sessionId|) + (sessionId + contentHash), DELIVERY_ACK_LABEL,
          U32(|b.sessionId|) + (b.sessionId + b.contentHash));
      SessionDomain(a, b);
      SessionLayout(sessionId, contentHash, b.sessionId, b.contentHash);
    case KeyBinding(kLocal, group) => KeyBindingInjective(a, b);
    case PeerAuth(_, _, _, _, _, _, _) => PeerAuthInjective(a, b);
    case Credential(_, _, _, _) => CredentialInjective(a, b);
    case Registration(_, _) => RegistrationInjective(a, b);
    case PairingPoll(_, _) => PairingPollInjective(a, b);
    case RelayOrder(_, _, _, _, _) => RelayOrderInjective(a, b);
  }

  lemma SessionDomain(a: Message, b: Message)
    requires InDomain(a) && InDomain(b) && (a.Ephemeral? || a.DeliveryAck?) && (b.Ephemeral? || b.DeliveryAck?)
    ensures |a.sessionId| < U32_SIZE && |b.sessionId| < U32_SIZE
  {
  }

  lemma KeyBindingInjective(a: Message, b: Message)
    requires a.KeyBinding? && b.KeyBinding? && InDomain(a) && InDomain(b) && Signed(a) == Signed(b)
    ensures a == b
  {
    SplitEqual(KEY_BINDING_LABEL, [0] + (a.kLocal + a.group), KEY_BINDING_LABEL, [0] + (b.kLocal + b.group));
    SplitEqual([0], a.kLocal + a.group, [0], b.kLocal + b.group);
    SplitEqual(a.kLocal, a.group, b.kLocal, b.group);
  }

  // ----- what a verified signature says

  type Verify = (Bytes, Bytes, Bytes) -> bool

  /** Everything some key has ever signed. */
  type History = set<(Bytes, Message)>

  /** A signature verifies only for what the key's holder signed, each time as a message in its domain. */
  ghost predicate Unforged(verify: Verify, history: History) {
    && (forall s :: s in history ==> InDomain(s.1))
    && forall key: Bytes, message: Bytes, signature: Bytes :: verify(key, message, signature) ==>
         exists s :: s in history && s.0 == key && Signed(s.1) == message
  }

  /** A signature that verifies for a message was made for that message: for no other session, field or purpose. */
  lemma VerifiedMeansSigned(verify: Verify, history: History, key: Bytes, m: Message, signature: Bytes)
    requires Unforged(verify, history) && InDomain(m) && verify(key, Signed(m), signature)
    ensures (key, m) in history
  {
    var s :| s in history && s.0 == key && Signed(s.1) == Signed(m);
    SignedInjective(s.1, m);
  }

  datatype AckRefusal = SignatureMissing | Malformed | NoParticipantKeys | SignatureMismatch

  /** The acknowledgement checked against the recorded participants in turn; keys of the wrong width are passed over. */
  method VerifyDeliveryAck(participants: seq<Bytes>, sessionId: Bytes, contentHash: Bytes, signature: Option<Bytes>,
      verify: Verify)
    returns (r: Result<Bytes, AckRefusal>)
    ensures r.Ok? <==> signature.Some? && |signature.value| == 64 && |contentHash| == 32 &&
                       exists i :: 0 <= i < |participants| && |participants[i]| == 32 &&
                                   verify(participants[i], Signed(DeliveryAck(sessionId, contentHash)), signature.value)
    ensures r.Ok? ==> r.value in participants && |r.value| == 32 && signature.Some? &&
                      verify(r.value, Signed(DeliveryAck(sessionId, contentHash)), signature.value)
    ensures r == Err(SignatureMissing) <==> signature.None?
    ensures r == Err(Malformed) <==> signature.Some? && (|signature.value| != 64 || |contentHash| != 32)
    ensures r == Err(NoParticipantKeys) <==>
            signature.Some? && |signature.value| == 64 && |contentHash| == 32 && participants == []
  {
    hide Signed;
    if signature.None? {
      return Err(SignatureMissing);
    }
    if |signature.value| != 64 || |contentHash| != 32 {
      return Err(Malformed);
    }
    if participants == [] {
      return Err(NoParticipantKeys);
    }
    ghost var message := Signed(DeliveryAck(sessionId, contentHash));
    var built := DeliveryAckSigningMessage(sessionId, contentHash);
    for i := 0 to |participants|
      invariant built[..] == message
      invariant forall j :: 0 <= j < i && |participants[j]| == 32 ==> !verify(participants[j], message, signature.value)
    {
      var candidate := participants[i];
      if |candidate| == 32 && verify(candidate, built[..], signature.value) {
        return Ok(candidate);
      }
    }
    return Err(SignatureMismatch);
  }

  /**
   An accepted acknowledgement was signed, as an acknowledgement of that content in that session, by a recorded
   participant.
   */
  lemma AcceptedAckWasGiven(verify: Verify, history: History, participants: seq<Bytes>, sessionId: Bytes,
      contentHash: Bytes,
      signature: Bytes, signer: Bytes)
    requires Unforged(verify, history) && |sessionId| < U32_SIZE && signer in participants
    requires verify(signer, Signed(DeliveryAck(sessionId, contentHash)), signature)
    ensures (signer, DeliveryAck(sessionId, contentHash)) in history
  {
    VerifiedMeansSigned(verify, history, signer, DeliveryAck(sessionId, contentHash), signature);
  }

  datatype EphemeralRefusal = Unsigned | WrongShape | NotThePeer

  /** The peer's session key checked against the identity expected, before anything is derived from it. */
  method VerifySessionEphemeral(expected: Bytes, sessionId: Bytes, public: Option<Bytes>, signature: Option<Bytes>,
      verify: Verify)
    returns (r: Result<(), EphemeralRefusal>)
    ensures r == Err(Unsigned) <==> signature.None?
    ensures r == Err(WrongShape) <==>
            signature.Some? && (|signature.value| != 64 || public.None? || |public.value| != 32)
    ensures r.Ok? <==> signature.Some? && |signature.value| == 64 && public.Some? && |public.value| == 32 &&
                       verify(expected, Signed(Ephemeral(sessionId, public.value)), signature.value)
  {
    hide Signed;
    if signature.None? {
      return Err(Unsigned);
    }
    if |signature.value| != 64 || public.None? || |public.value| != 32 {
      return Err(WrongShape);
    }
    var message := EphemeralSigningMessage(sessionId, public.value);
    if !verify(expected, message[..], signature.value) {
      return Err(NotThePeer);
    }
    return Ok(());
  }

  /** An accepted session key was signed for that session by the expected identity, and as a session key. */
  lemma AcceptedEphemeralWasSigned(verify: Verify, history: History, expected: Bytes, sessionId: Bytes, public: Bytes,
      signature: Bytes)
    requires Unforged(verify, history) && |sessionId| < U32_SIZE &&
             verify(expected, Signed(Ephemeral(sessionId, public)), signature)
    ensures (expected, Ephemeral(sessionId, public)) in history
  {
    VerifiedMeansSigned(verify, history, expected, Ephemeral(sessionId, public), signature);
  }
}
