/**
 Consortium manifests: what is signed, and when enough officers have signed it. Signature verification is a
 parameter that says yes, says no, or throws.
 */
module Manifest {
  import opened ByteStrings
  import opened Hex
  import opened JsonCanonical
  import opened JsonText
  import opened Utf8
  import opened Wrappers

  // ----- the body

  const SIGNATURES: Text := [115, 105, 103, 110, 97, 116, 117, 114, 101, 115]

  /** The bytes officers sign: the manifest without its signatures. */
  function CanonicalManifestBody(members: Members): Bytes {
    Encode(CanonicalText(Obj(Without(members, SIGNATURES))))
  }

  /** The body is the same exactly when the manifests mean the same, their signatures aside. */
  lemma BodyDecidesManifest(a: Members, b: Members)
    requires ValidMembers(a) && ValidMembers(b)
    ensures CanonicalManifestBody(a) == CanonicalManifestBody(b) <==>
            MeanMembers(Without(a, SIGNATURES)) == MeanMembers(Without(b, SIGNATURES))
  {
    WithoutValid(a, SIGNATURES);
    WithoutValid(b, SIGNATURES);
    var j, k := Obj(Without(a, SIGNATURES)), Obj(Without(b, SIGNATURES));
    CanonicalTextDecidesMeaning(j, k);
    CanonicalValid(j);
    CanonicalValid(k);
    if CanonicalManifestBody(a) == CanonicalManifestBody(b) {
      EncodedJsonInjective(Canonical(j), Canonical(k));
    }
  }

  // ----- nodes

  const ROLE: Text := [114, 111, 108, 101]
  const VALIDATOR: Text := [118, 97, 108, 105, 100, 97, 116, 111, 114]
  const REPLICA: Text := [114, 101, 112, 108, 105, 99, 97]

  function RoleOf(node: Members): Option<Json> {
    match node
    case NoMembers => None
    case Member(key, value, others) => if key == ROLE then Some(value) else RoleOf(others)
  }

  predicate RoleKnown(node: Members) {
    RoleOf(node).None? || RoleOf(node) == Some(Str(VALIDATOR)) || RoleOf(node) == Some(Str(REPLICA))
  }

  predicate Validates(node: Members) {
    RoleOf(node) != Some(Str(REPLICA))
  }

  function Validators(nodes: seq<Members>): nat {
    if nodes == [] then 0 else Validators(nodes[..|nodes| - 1]) + if Validates(nodes[|nodes| - 1]) then 1 else 0
  }

  // ----- signature entries

  /** A number as the language has them: an officer index is one, whatever its type promises. */
  datatype Number = Finite(value: real) | Infinite | NaN

  datatype Entry = Entry(officerIndex: Number, signature: string)

  datatype Reason = OutOfBounds | Duplicate | MalformedSignature | MalformedKey | VerificationFailed

  datatype Answer = Yes | No | Threw

  type Verify = (Bytes, Bytes, Bytes) -> Answer

  datatype Judgement = Verified(officer: nat) | Skipped(reason: Reason) | Throws

  /** What the loop finds an entry to be. Looking up a key that is no index of the list throws. */
  function Judge(entry: Entry, rootKeys: seq<string>, body: Bytes, verify: Verify): Judgement {
    var index := entry.officerIndex;
    if index.Infinite? || (index.Finite? && (index.value < 0.0 || index.value >= |rootKeys| as real)) then
      Skipped(OutOfBounds)
    else
      match FromHex(entry.signature, 64)
      case None => Skipped(MalformedSignature)
      case Some(signature) =>
        if index.NaN? || index.value.Floor as real != index.value then Throws
        else
          match FromHex(rootKeys[index.value.Floor], 32)
          case None => Skipped(MalformedKey)
          case Some(key) => if verify(signature, body, key).Yes? then Verified(index.value.Floor) else
              Skipped(VerificationFailed)
  }

  /** The one way an entry makes verification throw. */
  lemma ThrowsExactly(entry: Entry, rootKeys: seq<string>, body: Bytes, verify: Verify)
    ensures Judge(entry, rootKeys, body, verify).Throws? <==>
            FromHex(entry.signature, 64).Some? &&
            (entry.officerIndex.NaN? ||
             (entry.officerIndex.Finite? && 0.0 < entry.officerIndex.value < |rootKeys| as real &&
              entry.officerIndex.value.Floor as real != entry.officerIndex.value))
  {
    hide FromHex;
  }

  /**
   An entry verifies an officer exactly if its index is that officer's and both its hex strings are well formed and
   the signature is good.
   */
  lemma VerifiesExactly(entry: Entry, rootKeys: seq<string>, body: Bytes, verify: Verify, officer: nat)
    ensures Judge(entry, rootKeys, body, verify) == Verified(officer) <==>
            entry.officerIndex == Finite(officer as real) && officer < |rootKeys| &&
            FromHex(entry.signature, 64).Some? && FromHex(rootKeys[officer], 32).Some? &&
            verify(FromHex(entry.signature, 64).value, body, FromHex(rootKeys[officer], 32).value) == Yes
  {
    hide FromHex;
    assert (officer as real).Floor == officer;
  }

  /** Officers with at least one valid signature. */
  function Officers(entries: seq<Entry>, rootKeys: seq<string>, body: Bytes, verify: Verify): set<nat> {
    if entries == [] then {}
    else
      var j := Judge(entries[|entries| - 1], rootKeys, body, verify);
      Officers(entries[..|entries| - 1], rootKeys, body, verify) + if j.Verified? then {j.officer} else {}
  }

  predicate SomeThrow(entries: seq<Entry>, rootKeys: seq<string>, body: Bytes, verify: Verify) {
    exists i :: 0 <= i < |entries| && Judge(entries[i], rootKeys, body, verify).Throws?
  }

  /** The entries skipped, with the reason: a valid one only when its officer had one before. */
  function Skips(entries: seq<Entry>, rootKeys: seq<string>, body: Bytes, verify: Verify): seq<(Number, Reason)> {
    if entries == [] then []
    else
      var before, last := entries[..|entries| - 1], entries[|entries| - 1];
      Skips(before, rootKeys, body, verify) +
      match Judge(last, rootKeys, body, verify)
      case Verified(officer) => if officer in Officers(before, rootKeys, body, verify) then
          [(last.officerIndex, Duplicate)] else []
      case Skipped(reason) => [(last.officerIndex, reason)]
      case Throws => []
  }

  // ----- verification

  datatype Detail = NoNodes | UnknownRole | NoValidators | TooFew(signers: nat)

  datatype Outcome =
    | Accepted(signerCount: nat)
    | Refused(detail: Detail, validOfficers: set<nat>, skipped: seq<(Number, Reason)>)
    | Thrown

  datatype Manifest = Manifest(members: Members, nodes: seq<Members>, signatures: seq<Entry>)

  predicate NodesPass(nodes: seq<Members>) {
    (forall i :: 0 <= i < |nodes| ==> RoleKnown(nodes[i])) && exists i :: 0 <= i < |nodes| && Validates(nodes[i])
  }

  method VerifyManifest(manifest: Manifest, rootKeys: seq<string>, threshold: int, verify: Verify) returns (r: Outcome)
    ensures !NodesPass(manifest.nodes) <==> r.Refused? && !r.detail.TooFew?
    ensures NodesPass(manifest.nodes) ==>
              var entries, body := manifest.signatures, CanonicalManifestBody(manifest.members);
              var officers := Officers(entries, rootKeys, body, verify);
              r == if SomeThrow(entries, rootKeys, body, verify) then Thrown
                   else if |officers| >= threshold then Accepted(|officers|)
                   else Refused(TooFew(|officers|), officers, Skips(entries, rootKeys, body, verify))
  {
    hide NodesPass, CanonicalManifestBody, Officers, Skips, SomeThrow;
    var fault := CheckNodes(manifest.nodes);
    if fault.Some? {
      return Refused(fault.value, {}, []);
    }
    r := CheckSignatures(manifest.signatures, rootKeys, CanonicalManifestBody(manifest.members), threshold, verify);
  }

  method CheckNodes(nodes: seq<Members>) returns (fault: Option<Detail>)
    ensures fault.None? <==> NodesPass(nodes)
    ensures fault.Some? ==> !fault.value.TooFew?
  {
    if nodes == [] {
      return Some(NoNodes);
    }
    for i := 0 to |nodes|
      invariant forall j :: 0 <= j < i ==> RoleKnown(nodes[j])
    {
      if !RoleKnown(nodes[i]) {
        return Some(UnknownRole);
      }
    }
    ValidatorsCounted(nodes);
    if Validators(nodes) == 0 {
      return Some(NoValidators);
    }
    return None;
  }

  method CheckSignatures(entries: seq<Entry>, rootKeys: seq<string>, body: Bytes, threshold: int, verify: Verify)
    returns (r: Outcome)
    ensures var officers := Officers(entries, rootKeys, body, verify);
            r == if SomeThrow(entries, rootKeys, body, verify) then Thrown
                 else if |officers| >= threshold then Accepted(|officers|)
                 else Refused(TooFew(|officers|), officers, Skips(entries, rootKeys, body, verify))
  {
    hide Judge;
    var verified: set<nat>, skipped: seq<(Number, Reason)> := {}, [];
    for i := 0 to |entries|
      invariant verified == Officers(entries[..i], rootKeys, body, verify)
      invariant skipped == Skips(entries[..i], rootKeys, body, verify)
      invariant !SomeThrow(entries[..i], rootKeys, body, verify)
    {
      assert entries[..i + 1][..i] == entries[..i];
      match Judge(entries[i], rootKeys, body, verify)
      case Throws =>
        assert SomeThrow(entries, rootKeys, body, verify);
        return Thrown;
      case Skipped(reason) => skipped := skipped + [(entries[i].officerIndex, reason)];
      case Verified(officer) =>
        if officer in verified {
          skipped := skipped + [(entries[i].officerIndex, Duplicate)];
        } else {
          verified := verified + {officer};
        }
    }
    assert entries[..|entries|] == entries;
    r := if |verified| >= threshold then Accepted(|verified|) else Refused(TooFew(|verified|), verified, skipped);
  }

  lemma {:induction false} ValidatorsCounted(nodes: seq<Members>)
    ensures Validators(nodes) > 0 <==> exists i :: 0 <= i < |nodes| && Validates(nodes[i])
  {
    if nodes != [] {
      var before := nodes[..|nodes| - 1];
      ValidatorsCounted(before);
      if i :| 0 <= i < |before| && Validates(before[i]) {
        assert Validates(nodes[i]);
      }
    }
  }

  // ----- what the verdict depends on

  lemma {:induction false} OfficersAre(entries: seq<Entry>, rootKeys: seq<string>, body: Bytes, verify: Verify,
      officer: nat)
    ensures officer in Officers(entries, rootKeys, body, verify) <==>
            exists i :: 0 <= i < |entries| && Judge(entries[i], rootKeys, body, verify) == Verified(officer)
  {
    hide Judge;
    if entries != [] {
      var before := entries[..|entries| - 1];
      OfficersAre(before, rootKeys, body, verify, officer);
      if i :| 0 <= i < |before| && Judge(before[i], rootKeys, body, verify) == Verified(officer) {
        assert Judge(entries[i], rootKeys, body, verify) == Verified(officer);
      }
    }
  }

  /** Every entry is counted once: it verified an officer first, or it was skipped. */
  lemma {:induction false} EachEntryCountedOnce(entries: seq<Entry>, rootKeys: seq<string>, body: Bytes, verify: Verify)
    requires !SomeThrow(entries, rootKeys, body, verify)
    ensures |Officers(entries, rootKeys, body, verify)| + |Skips(entries, rootKeys, body, verify)| == |entries|
  {
    hide Judge;
    if entries != [] {
      var before, j := entries[..|entries| - 1], Judge(entries[|entries| - 1], rootKeys, body, verify);
      assert forall i :: 0 <= i < |before| ==> before[i] == entries[i];
      EachEntryCountedOnce(before, rootKeys, body, verify);
      var officers := Officers(before, rootKeys, body, verify);
      match j
      case Verified(officer) =>
        if officer in officers {
          assert officers + {officer} == officers;
        }
      case Skipped(_) =>
        assert officers + {} == officers;
      case Throws =>
    }
  }

  ghost predicate Among(entries: seq<Entry>, more: seq<Entry>) {
    forall i :: 0 <= i < |entries| ==> entries[i] in more
  }

  lemma OfficersGrow(entries: seq<Entry>, more: seq<Entry>, rootKeys: seq<string>, body: Bytes, verify: Verify)
    requires Among(entries, more)
    ensures Officers(entries, rootKeys, body, verify) <= Officers(more, rootKeys, body, verify)
    ensures SomeThrow(entries, rootKeys, body, verify) ==> SomeThrow(more, rootKeys, body, verify)
  {
    hide Judge;
    forall officer | officer in Officers(entries, rootKeys, body, verify)
      ensures officer in Officers(more, rootKeys, body, verify)
    {
      OfficersAre(entries, rootKeys, body, verify, officer);
      OfficersAre(more, rootKeys, body, verify, officer);
      var i :| 0 <= i < |entries| && Judge(entries[i], rootKeys, body, verify) == Verified(officer);
      var j :| 0 <= j < |more| && more[j] == entries[i];
    }
    if i :| 0 <= i < |entries| && Judge(entries[i], rootKeys, body, verify).Throws? {
      var j :| 0 <= j < |more| && more[j] == entries[i];
    }
  }

  /** The order of the entries and how often one is repeated do not matter. */
  lemma OrderAndRepetitionDoNotMatter(a: seq<Entry>, b: seq<Entry>, rootKeys: seq<string>, body: Bytes, verify: Verify)
    requires Among(a, b) && Among(b, a)
    ensures Officers(a, rootKeys, body, verify) == Officers(b, rootKeys, body, verify)
    ensures SomeThrow(a, rootKeys, body, verify) == SomeThrow(b, rootKeys, body, verify)
  {
    OfficersGrow(a, b, rootKeys, body, verify);
    OfficersGrow(b, a, rootKeys, body, verify);
  }

  lemma {:induction false} SmallerSet(a: set<nat>, b: set<nat>)
    requires a <= b
    ensures |a| <= |b|
  {
    if a != {} {
      var x :| x in a;
      SmallerSet(a - {x}, b - {x});
    }
  }

  /** Enough signers stay enough, whatever entries are added. */
  lemma AddingEntriesKeepsTheCount(entries: seq<Entry>, more: seq<Entry>, rootKeys: seq<string>, body: Bytes,
      verify: Verify)
    requires Among(entries, more)
    ensures |Officers(entries, rootKeys, body, verify)| <= |Officers(more, rootKeys, body, verify)|
  {
    OfficersGrow(entries, more, rootKeys, body, verify);
    SmallerSet(Officers(entries, rootKeys, body, verify), Officers(more, rootKeys, body, verify));
  }

  lemma {:induction false} OfficersBounded(n: nat) returns (all: set<nat>)
    ensures |all| == n && forall k: nat :: k in all <==> k < n
  {
    if n == 0 {
      all := {};
    } else {
      var before := OfficersBounded(n - 1);
      all := before + {n - 1};
    }
  }

  /** No more officers verify than there are root keys, so a threshold above that is never reached. */
  lemma NoMoreOfficersThanKeys(entries: seq<Entry>, rootKeys: seq<string>, body: Bytes, verify: Verify)
    ensures |Officers(entries, rootKeys, body, verify)| <= |rootKeys|
  {
    var all := OfficersBounded(|rootKeys|);
    forall officer | officer in Officers(entries, rootKeys, body, verify)
      ensures officer in all
    {
      OfficersAre(entries, rootKeys, body, verify, officer);
    }
    SmallerSet(Officers(entries, rootKeys, body, verify), all);
  }
}
