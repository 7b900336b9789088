/**
 Leaf and node hashing. SHA-256 is a parameter: any function from byte strings to 32-byte strings.
 */
module Hashing {
  import opened ByteStrings
  import opened Wrappers

  const DIGEST_BYTES := 32

  type Digest = b: Bytes | |b| == 32 witness seq(32, _ => 0 as Byte)
  type Hash = Bytes -> Digest

  const MSG_LEAF: Byte := 0x00
  const INTERNAL_NODE: Byte := 0x01
  const CTRL_LEAF: Byte := 0x02
  const DOC_LEAF: Byte := 0x04
  const REJECT_LEAF: Byte := 0x05

  datatype HashError =
    | PrefixNotAByte(prefix: int)
    | PrefixIsInternalNode
    | NodeInputLength(left: nat, right: nat)
    | UnrecognizedKind(kind: string)

  /** Two distinct inputs with one digest. */
  ghost predicate Collides(sha: Hash, c: (Bytes, Bytes)) {
    c.0 != c.1 && sha(c.0) == sha(c.1)
  }

  function Prefixed(prefix: Byte, data: Bytes): Bytes {
    [prefix] + data
  }

  function NodeInput(left: Bytes, right: Bytes): Bytes {
    Prefixed(INTERNAL_NODE, left + right)
  }

  function Node(sha: Hash, left: Bytes, right: Bytes): Digest {
    sha(NodeInput(left, right))
  }

  /** An input for one leaf, with its kind; `Unrecognized` is a kind this build does not know. */
  datatype LeafInput =
    | Msg(data: Bytes)
    | Ctrl(data: Bytes)
    | Doc(data: Bytes)
    | Reject(data: Bytes)
    | Opaque(prefix: int, data: Bytes)
    | PreHashed(data: Bytes)
    | Unrecognized(kind: string)

  function OpaqueLeafHash(sha: Hash, prefix: int, data: Bytes): Result<Bytes, HashError> {
    if prefix < 0 || prefix > 255 then Err(PrefixNotAByte(prefix))
    else if prefix == INTERNAL_NODE as int then Err(PrefixIsInternalNode)
    else Ok(sha(Prefixed(prefix as Byte, data)))
  }

  function LeafHash(sha: Hash, leaf: LeafInput): Result<Bytes, HashError> {
    match leaf
    case Msg(data) => Ok(sha(Prefixed(MSG_LEAF, data)))
    case Ctrl(data) => Ok(sha(Prefixed(CTRL_LEAF, data)))
    case Doc(data) => Ok(sha(Prefixed(DOC_LEAF, data)))
    case Reject(data) => Ok(sha(Prefixed(REJECT_LEAF, data)))
    case Opaque(prefix, data) => OpaqueLeafHash(sha, prefix, data)
    case PreHashed(data) => Ok(data)
    case Unrecognized(kind) => Err(UnrecognizedKind(kind))
  }

  /** Refuses children that are not digests; otherwise hashes 0x01 || left || right. */
  method NodeHash(sha: Hash, left: Bytes, right: Bytes) returns (r: Result<Bytes, HashError>)
    ensures r.Ok? <==> |left| == DIGEST_BYTES && |right| == DIGEST_BYTES
    ensures r.Ok? ==> r.value == Node(sha, left, right)
    ensures r.Err? ==> r.error == NodeInputLength(|left|, |right|)
  {
    if |left| != DIGEST_BYTES || |right| != DIGEST_BYTES {
      return Err(NodeInputLength(|left|, |right|));
    }
    var buf := new Byte[1 + |left| + |right|](_ => 0);
    buf[0] := INTERNAL_NODE;
    assert buf[..1] == [INTERNAL_NODE];
    SetBytes(buf, left, 1);
    SetBytes(buf, right, 1 + |left|);
    assert buf[..] == buf[..1 + |left| + |right|] == NodeInput(left, right);
    return Ok(sha(buf[..]));
  }

  /** Equal node inputs made of digests have equal children: the layout is unambiguous. */
  lemma NodeInputInjective(a: Bytes, b: Bytes, c: Bytes, d: Bytes)
    requires |a| == |c|
    requires NodeInput(a, b) == NodeInput(c, d)
    ensures a == c && b == d
  {
    assert a + b == NodeInput(a, b)[1..] == NodeInput(c, d)[1..] == c + d;
    SplitEqual(a, b, c, d);
  }
}
