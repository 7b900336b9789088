/**
 Channel group keys: what a member can open. The cipher is ideal: it opens exactly what was sealed with it, so what
 is proved here is what the code adds, the bytes it binds and the order of its checks.
 */
module GroupKeys {
  import opened ByteStrings
  import opened JsonText
  import opened SigningMessages
  import opened Wrappers

  const BODY_AAD_DOMAIN: Bytes := [99, 101, 108, 108, 111, 45, 98, 114, 111, 97, 100, 99, 97, 115, 116, 45, 98, 111,
      100, 121, 45, 118, 49]
  const BUNDLE_DOMAIN: Bytes := [99, 101, 108, 108, 111, 45, 99, 104, 97, 110, 110, 101, 108, 45, 107, 101, 121, 45, 98,
      117, 110, 100, 108, 101, 45, 118, 49]
  const FETCH_KEY_INFO: Text := [99, 101, 108, 108, 111, 45, 99, 104, 97, 110, 110, 101, 108, 45, 102, 101, 116, 99,
      104, 45, 107, 101, 121, 45, 118, 49]

  const KEY_BYTES := 32
  const PUBKEY_BYTES := 32
  const NONCE_BYTES := 12
  const TAG_BYTES := 16
  const GENERATION_BYTES := 4
  const BODY_OVERHEAD := GENERATION_BYTES + NONCE_BYTES + TAG_BYTES

  datatype GroupKey = GroupKey(generation: int, key: Bytes)

  /** What fits four bytes; writing anything else throws. */
  predicate InU32(n: int) {
    0 <= n < U32_SIZE
  }

  // ----- posts

  /** A post as its publisher made it. */
  datatype Post = Post(gk: GroupKey, channel: Bytes, position: int, nonce: Bytes, plaintext: Bytes)

  function BodyAad(channel: Bytes, position: int, generation: int): Option<Bytes> {
    if InU32(position) && InU32(generation) then Some(BODY_AAD_DOMAIN + (channel + (U32(position) + U32(generation))))
    else None
  }

  /** Ciphertext and tag, from key, nonce, associated data and plaintext. */
  type Seal = (Bytes, Bytes, Bytes, Bytes) -> Bytes

  /** A cipher keeps lengths, and what it made of a plaintext it made of no other. */
  ghost predicate IsCipher(seal: Seal) {
    && (forall k, n, a, p :: |seal(k, n, a, p)| == |p| + TAG_BYTES)
    && forall k, n, a, p, q :: seal(k, n, a, p) == seal(k, n, a, q) ==> p == q
  }

  /** A post's body, or nothing when making it throws. */
  function EncryptBody(seal: Seal, post: Post): Option<Bytes> {
    match BodyAad(post.channel, post.position, post.gk.generation)
    case None => None
    case Some(aad) =>
      if |post.gk.key| != KEY_BYTES then None
      else Some(U32(post.gk.generation) + (post.nonce + seal(post.gk.key, post.nonce, aad, post.plaintext)))
  }

  lemma AadInRange(post: Post)
    ensures BodyAad(post.channel, post.position, post.gk.generation).Some? ==> post.gk.generation >= 0
  {
  }

  method EncryptPost(seal: Seal, post: Post) returns (r: Option<Bytes>)
    ensures r == EncryptBody(seal, post)
  {
    AadInRange(post);
    hide U32, BodyAad;
    var aad := BodyAad(post.channel, post.position, post.gk.generation);
    if aad.None? || |post.gk.key| != KEY_BYTES {
      return None;
    }
    var sealed := seal(post.gk.key, post.nonce, aad.value, post.plaintext);
    var out := new Byte[GENERATION_BYTES](_ => 0);
    SetU32(out, post.gk.generation, 0);
    assert out[..] == out[..0 + 4] == U32(post.gk.generation);
    return Some(out[..] + (post.nonce + sealed));
  }

  predicate MadeBy(seal: Seal, post: Post, key: Bytes, nonce: Bytes, aad: Bytes, sealed: Bytes) {
    EncryptBody(seal, post).Some? && post.gk.key == key && post.nonce == nonce &&
    BodyAad(post.channel, post.position, post.gk.generation) == Some(aad) &&
        seal(key, nonce, aad, post.plaintext) == sealed
  }

  /** The ideal opening: of what some post sealed under this key, nonce and associated data, and of nothing else. */
  function Opened(seal: Seal, posts: seq<Post>, key: Bytes, nonce: Bytes, aad: Bytes, sealed: Bytes): Option<Bytes> {
    if posts == [] then None
    else if MadeBy(seal, posts[0], key, nonce, aad, sealed) then Some(posts[0].plaintext)
    else Opened(seal, posts[1..], key, nonce, aad, sealed)
  }

  function Find(keys: seq<GroupKey>, generation: int): Option<GroupKey> {
    if keys == [] then None else if keys[0].generation == generation then Some(keys[0]) else Find(keys[1..], generation)
  }

  datatype Failure = UnknownGeneration | AuthFailed | Malformed

  /** A post opened, with its generation. */
  datatype Plain = Plain(plaintext: Bytes, generation: int)

  function DecryptBody(seal: Seal, posts: seq<Post>, keys: seq<GroupKey>, channel: Bytes, position: int,
      body: Bytes): Result<Plain, Failure> {
    if |body| < BODY_OVERHEAD then Err(Failure.Malformed)
    else
      var generation := FromU32(body[..GENERATION_BYTES]);
      match Find(keys, generation)
      case None => Err(UnknownGeneration)
      case Some(gk) =>
        var aad := BodyAad(channel, position, generation);
        if aad.None? || |gk.key| != KEY_BYTES then Err(AuthFailed)
        else
          var nonce, rest := body[GENERATION_BYTES..GENERATION_BYTES + NONCE_BYTES],
              body[GENERATION_BYTES + NONCE_BYTES..];
          match Opened(seal, posts, gk.key, nonce, aad.value, rest)
          case None => Err(AuthFailed)
          case Some(plaintext) => Ok(Plain(plaintext, generation))
  }

  // ----- the associated data

  lemma WordsInjective(m: nat, n: nat)
    requires m < U32_SIZE && n < U32_SIZE && U32(m) == U32(n)
    ensures m == n
  {
    hide U32, FromU32;
    U32RoundTrip(m);
    U32RoundTrip(n);
  }

  /** Channel, position and generation are read off the associated data, whatever the channel's length. */
  lemma AadInjective(c: Bytes, i: int, g: int, d: Bytes, j: int, h: int)
    requires BodyAad(c, i, g).Some? && BodyAad(c, i, g) == BodyAad(d, j, h)
    ensures c == d && i == j && g == h
  {
    hide U32, BODY_AAD_DOMAIN;
    var x, y := U32(i) + U32(g), U32(j) + U32(h);
    SplitEqual(BODY_AAD_DOMAIN, c + x, BODY_AAD_DOMAIN, d + y);
    assert |c + x| == |d + y|;
    SplitEqual(c, x, d, y);
    SplitEqual(U32(i), U32(g), U32(j), U32(h));
    WordsInjective(i, j);
    WordsInjective(g, h);
  }

  // ----- what opens

  lemma {:induction false} OpenedIs(seal: Seal, posts: seq<Post>, key: Bytes, nonce: Bytes, aad: Bytes, sealed: Bytes)
    ensures Opened(seal, posts, key, nonce, aad, sealed).None? ==>
              forall i :: 0 <= i < |posts| ==> !MadeBy(seal, posts[i], key, nonce, aad, sealed)
    ensures Opened(seal, posts, key, nonce, aad, sealed).Some? ==>
              exists i :: 0 <= i < |posts| && MadeBy(seal, posts[i], key, nonce, aad, sealed) &&
                          posts[i].plaintext == Opened(seal, posts, key, nonce, aad, sealed).value
  {
    hide MadeBy;
    if posts != [] {
      OpenedIs(seal, posts[1..], key, nonce, aad, sealed);
      if !MadeBy(seal, posts[0], key, nonce, aad, sealed) && Opened(seal, posts[1..], key, nonce, aad, sealed).Some? {
        var i :| 0 <= i < |posts[1..]| && MadeBy(seal, posts[1..][i], key, nonce, aad, sealed) &&
                 posts[1..][i].plaintext == Opened(seal, posts[1..], key, nonce, aad, sealed).value;
        assert posts[i + 1] == posts[1..][i];
      }
    }
  }

  /** The body is this post's, at its own place, under the key held for its generation. */
  ghost predicate OpensAs(seal: Seal, post: Post, keys: seq<GroupKey>, channel: Bytes, position: int, body: Bytes,
      plain: Plain) {
    && EncryptBody(seal, post) == Some(body) && post.channel == channel && post.position == position
    && plain == Plain(post.plaintext, post.gk.generation)
    && Find(keys, post.gk.generation).Some? && Find(keys, post.gk.generation).value.key == post.gk.key
  }

  lemma BodyLayout(seal: Seal, post: Post)
    requires IsCipher(seal) && |post.nonce| == NONCE_BYTES && EncryptBody(seal, post).Some?
    ensures var body, aad := EncryptBody(seal, post).value,
            BodyAad(post.channel, post.position, post.gk.generation).value;
            |body| >= BODY_OVERHEAD && FromU32(body[..GENERATION_BYTES]) == post.gk.generation &&
            body[GENERATION_BYTES..GENERATION_BYTES + NONCE_BYTES] == post.nonce &&
            body[GENERATION_BYTES + NONCE_BYTES..] == seal(post.gk.key, post.nonce, aad, post.plaintext)
  {
    var body, aad := EncryptBody(seal, post).value, BodyAad(post.channel, post.position, post.gk.generation).value;
    var sealed := seal(post.gk.key, post.nonce, aad, post.plaintext);
    U32RoundTrip(post.gk.generation);
    hide U32, FromU32, BodyAad;
    assert body[..GENERATION_BYTES] == U32(post.gk.generation);
  }

  lemma BodyRebuilt(seal: Seal, post: Post, body: Bytes, aad: Bytes)
    requires |body| >= BODY_OVERHEAD && FromU32(body[..GENERATION_BYTES]) == post.gk.generation
    requires MadeBy(seal, post, post.gk.key, body[GENERATION_BYTES..GENERATION_BYTES + NONCE_BYTES], aad,
             body[GENERATION_BYTES + NONCE_BYTES..])
    ensures EncryptBody(seal, post) == Some(body)
  {
    FromU32RoundTrip(body[..GENERATION_BYTES]);
    hide U32, FromU32, BodyAad;
    var nonce, sealed := body[GENERATION_BYTES..GENERATION_BYTES + NONCE_BYTES], body[GENERATION_BYTES + NONCE_BYTES..];
    assert body == body[..GENERATION_BYTES] + (nonce + sealed);
  }

  lemma OpensOnlyPosts(seal: Seal, posts: seq<Post>, keys: seq<GroupKey>, channel: Bytes, position: int, body: Bytes,
      plain: Plain)
    requires DecryptBody(seal, posts, keys, channel, position, body) == Ok(plain)
    ensures exists i :: 0 <= i < |posts| && OpensAs(seal, posts[i], keys, channel, position, body, plain)
  {
    hide FromU32, MadeBy, BodyAad, Opened, EncryptBody;
    var g := FromU32(body[..GENERATION_BYTES]);
    FindIs(keys, g);
    var gk := Find(keys, g).value;
    var nonce, rest := body[GENERATION_BYTES..GENERATION_BYTES + NONCE_BYTES], body[GENERATION_BYTES + NONCE_BYTES..];
    var aad := BodyAad(channel, position, g).value;
    OpenedIs(seal, posts, gk.key, nonce, aad, rest);
    var i :| 0 <= i < |posts| && MadeBy(seal, posts[i], gk.key, nonce, aad, rest) &&
        posts[i].plaintext == plain.plaintext;
    MadeAt(seal, posts[i], gk.key, nonce, aad, rest, channel, position, g);
    BodyRebuilt(seal, posts[i], body, aad);
  }

  lemma MadeAt(seal: Seal, post: Post, key: Bytes, nonce: Bytes, aad: Bytes, sealed: Bytes, channel: Bytes,
      position: int, generation: int)
    requires MadeBy(seal, post, key, nonce, aad, sealed) && BodyAad(channel, position, generation) == Some(aad)
    ensures post.channel == channel && post.position == position && post.gk.generation == generation &&
            post.gk.key == key
  {
    AadInjective(post.channel, post.position, post.gk.generation, channel, position, generation);
  }

  lemma {:induction false} FindIs(keys: seq<GroupKey>, generation: int)
    ensures Find(keys, generation).None? ==> forall k :: k in keys ==> k.generation != generation
    ensures Find(keys, generation).Some? ==>
            Find(keys, generation).value in keys && Find(keys, generation).value.generation == generation
  {
    if keys != [] {
      FindIs(keys[1..], generation);
    }
  }

  lemma PostsOpen(seal: Seal, posts: seq<Post>, keys: seq<GroupKey>, channel: Bytes, position: int, body: Bytes,
      plain: Plain, i: nat)
    requires IsCipher(seal) && i < |posts| && |posts[i].nonce| == NONCE_BYTES
    requires OpensAs(seal, posts[i], keys, channel, position, body, plain)
    ensures DecryptBody(seal, posts, keys, channel, position, body) == Ok(plain)
  {
    var post := posts[i];
    BodyLayout(seal, post);
    var gk, aad := Find(keys, post.gk.generation).value, BodyAad(channel, position, post.gk.generation).value;
    var nonce, rest := body[GENERATION_BYTES..GENERATION_BYTES + NONCE_BYTES], body[GENERATION_BYTES + NONCE_BYTES..];
    assert MadeBy(seal, post, gk.key, nonce, aad, rest);
    hide FromU32, U32, BodyAad, Opened;
    OpenedIs(seal, posts, gk.key, nonce, aad, rest);
    var j :| 0 <= j < |posts| && MadeBy(seal, posts[j], gk.key, nonce, aad, rest) &&
             posts[j].plaintext == Opened(seal, posts, gk.key, nonce, aad, rest).value;
    assert seal(gk.key, nonce, aad, posts[j].plaintext) == seal(gk.key, nonce, aad, post.plaintext);
  }

  /**
   For every history of posts, every set of keys and every body served anywhere: it opens exactly when it is the body
   of a post, served at that post's channel and position, whose generation's key is held; and as that post.
   */
  lemma DecryptsExactly(seal: Seal, posts: seq<Post>, keys: seq<GroupKey>, channel: Bytes, position: int, body: Bytes,
      plain: Plain)
    requires IsCipher(seal) && forall i :: 0 <= i < |posts| ==> |posts[i].nonce| == NONCE_BYTES
    ensures DecryptBody(seal, posts, keys, channel, position, body) == Ok(plain) <==>
            exists i :: 0 <= i < |posts| && OpensAs(seal, posts[i], keys, channel, position, body, plain)
  {
    hide DecryptBody, OpensAs, IsCipher;
    if DecryptBody(seal, posts, keys, channel, position, body) == Ok(plain) {
      OpensOnlyPosts(seal, posts, keys, channel, position, body, plain);
    }
    if i :| 0 <= i < |posts| && OpensAs(seal, posts[i], keys, channel, position, body, plain) {
      PostsOpen(seal, posts, keys, channel, position, body, plain, i);
    }
  }

  /** `unknown_generation` means just that: a body long enough, of a generation for which no key is held. */
  lemma UnknownGenerationExactly(seal: Seal, posts: seq<Post>, keys: seq<GroupKey>, channel: Bytes, position: int,
      body: Bytes)
    ensures DecryptBody(seal, posts, keys, channel, position, body) == Err(UnknownGeneration) <==>
            |body| >= BODY_OVERHEAD && forall k :: k in keys ==> k.generation != FromU32(body[..GENERATION_BYTES])
  {
    if |body| >= BODY_OVERHEAD {
      FindIs(keys, FromU32(body[..GENERATION_BYTES]));
    }
    hide FromU32, Opened, BodyAad;
  }

  // ----- bundles

  function Payload(gk: GroupKey, channel: Bytes): Option<Bytes> {
    if InU32(gk.generation) then Some(BUNDLE_DOMAIN + (channel + (U32(gk.generation) + gk.key))) else None
  }

  /** What the member's key provider makes of a bundle. */
  datatype Opener = NoOpener | Threw | NothingForMe | Contents(payload: Bytes)

  datatype UnwrapFailure = NotForMe | MalformedBundle | WrongChannel | ProviderFailed

  const BUNDLE_BYTES := |BUNDLE_DOMAIN| + PUBKEY_BYTES + GENERATION_BYTES + KEY_BYTES

  function Unwrapped(opener: Opener, channel: Bytes): Result<GroupKey, UnwrapFailure> {
    match opener
    case NoOpener => Err(NotForMe)
    case Threw => Err(ProviderFailed)
    case NothingForMe => Err(NotForMe)
    case Contents(payload) =>
      var n := |BUNDLE_DOMAIN|;
      if |payload| != BUNDLE_BYTES || payload[..n] != BUNDLE_DOMAIN then Err(MalformedBundle)
      else if payload[n..n + 32] != channel then Err(WrongChannel)
      else Ok(GroupKey(FromU32(payload[n + 32..n + 36]), payload[n + 36..]))
  }

  /** The layout is read with an offset that moves along. */
  method UnwrapGroupKey(opener: Opener, channel: Bytes) returns (r: Result<GroupKey, UnwrapFailure>)
    ensures r == Unwrapped(opener, channel)
  {
    hide FromU32;
    match opener
    case NoOpener => return Err(NotForMe);
    case Threw => return Err(ProviderFailed);
    case NothingForMe => return Err(NotForMe);
    case Contents(payload) =>
      if |payload| != BUNDLE_BYTES {
        return Err(MalformedBundle);
      }
      var at := |BUNDLE_DOMAIN|;
      if payload[..at] != BUNDLE_DOMAIN {
        return Err(MalformedBundle);
      }
      var named := payload[at..at + PUBKEY_BYTES];
      at := at + PUBKEY_BYTES;
      var generation := FromU32(payload[at..at + GENERATION_BYTES]);
      at := at + GENERATION_BYTES;
      var key := payload[at..at + KEY_BYTES];
      if named != channel {
        return Err(WrongChannel);
      }
      assert payload[at..at + KEY_BYTES] == payload[at..];
      return Ok(GroupKey(generation, key));
  }

  /**
   Wrapping and unwrapping are inverse: what unwraps to a key is the payload made of that key for that channel, and
   conversely.
   */
  lemma UnwrapInverts(payload: Bytes, channel: Bytes, gk: GroupKey)
    ensures Unwrapped(Contents(payload), channel) == Ok(gk) <==>
            |channel| == PUBKEY_BYTES && |gk.key| == KEY_BYTES && Payload(gk, channel) == Some(payload)
  {
    var n := |BUNDLE_DOMAIN|;
    if |payload| == BUNDLE_BYTES {
      var word := payload[n + 32..n + 36];
      FromU32RoundTrip(word);
      assert payload == payload[..n] + (payload[n..n + 32] + (word + payload[n + 36..]));
    }
    if InU32(gk.generation) {
      U32RoundTrip(gk.generation);
    }
    hide U32, FromU32, BUNDLE_DOMAIN;
    if |channel| == PUBKEY_BYTES && |gk.key| == KEY_BYTES && Payload(gk, channel) == Some(payload) {
      PayloadParts(BUNDLE_DOMAIN, channel, U32(gk.generation), gk.key);
    }
  }

  lemma PayloadParts(d: Bytes, c: Bytes, w: Bytes, k: Bytes)
    requires |c| == 32 && |w| == 4
    ensures var p, n := d + (c + (w + k)), |d|;
            p[..n] == d && p[n..n + 32] == c && p[n + 32..n + 36] == w && p[n + 36..] == k
  {
  }

  /** Who was handed which key, on which channel. */
  datatype Bundle = Bundle(member: Bytes, gk: GroupKey, channel: Bytes)

  /** The keys a member gets out of all bundles ever made; a sealed bundle opens for its own member only. */
  function KeysOf(bundles: seq<Bundle>, member: Bytes, channel: Bytes): seq<GroupKey> {
    if bundles == [] then []
    else
      var b := bundles[0];
      var payload := Payload(b.gk, b.channel);
      var opener := if payload.Some? && b.member == member then Contents(payload.value) else NothingForMe;
      (match Unwrapped(opener, channel) case Ok(gk) => [gk] case Err(_) => []) + KeysOf(bundles[1..], member, channel)
  }

  ghost predicate Handed(bundles: seq<Bundle>, member: Bytes, channel: Bytes, gk: GroupKey) {
    Bundle(member, gk, channel) in bundles
  }

  lemma PayloadInjective(g: GroupKey, c: Bytes, h: GroupKey, d: Bytes)
    requires |c| == PUBKEY_BYTES && |d| == PUBKEY_BYTES && |g.key| == KEY_BYTES && Payload(g, c).Some? &&
             Payload(g, c) == Payload(h, d)
    requires |h.key| == KEY_BYTES
    ensures g == h && c == d
  {
    var p := Payload(g, c).value;
    UnwrapInverts(p, c, g);
    UnwrapInverts(p, d, h);
    UnwrapInverts(p, c, h);
  }

  /** Bundles are made of 32-byte channels and keys. */
  ghost predicate WellMade(bundles: seq<Bundle>) {
    forall i :: 0 <= i < |bundles| ==>
        |bundles[i].channel| == PUBKEY_BYTES && |bundles[i].gk.key| == KEY_BYTES && InU32(bundles[i].gk.generation)
  }

  lemma {:induction false} KeysAreThoseHanded(bundles: seq<Bundle>, member: Bytes, channel: Bytes, gk: GroupKey)
    requires WellMade(bundles)
    ensures gk in KeysOf(bundles, member, channel) <==> Handed(bundles, member, channel, gk)
  {
    if bundles != [] {
      var b, rest := bundles[0], bundles[1..];
      KeysAreThoseHanded(rest, member, channel, gk);
      assert bundles == [b] + rest;
      var payload := Payload(b.gk, b.channel).value;
      UnwrapInverts(payload, b.channel, b.gk);
      UnwrapInverts(payload, channel, gk);
      if b.member == member && Unwrapped(Contents(payload), channel) == Ok(gk) {
        PayloadInjective(gk, channel, b.gk, b.channel);
      }
      hide Unwrapped, Payload;
    }
  }

  /** On one channel, one generation means one key, in bundles and posts alike. */
  ghost predicate OneKeyPerGeneration(bundles: seq<Bundle>, posts: seq<Post>) {
    && (forall i, j :: 0 <= i < |bundles| && 0 <= j < |bundles| && bundles[i].channel == bundles[j].channel ==>
          bundles[i].gk.generation == bundles[j].gk.generation ==> bundles[i].gk == bundles[j].gk)
    && forall i, j :: 0 <= i < |bundles| && 0 <= j < |posts| && bundles[i].channel == posts[j].channel ==>
         bundles[i].gk.generation == posts[j].gk.generation ==> bundles[i].gk == posts[j].gk
  }

  /** No nonce was used twice. */
  ghost predicate FreshNonces(posts: seq<Post>) {
    forall i, j :: 0 <= i < j < |posts| ==> posts[i].nonce != posts[j].nonce
  }

  lemma FoundKey(bundles: seq<Bundle>, posts: seq<Post>, member: Bytes, i: nat)
    requires WellMade(bundles) && OneKeyPerGeneration(bundles, posts) && i < |posts|
    ensures var keys := KeysOf(bundles, member, posts[i].channel);
            Find(keys, posts[i].gk.generation) == if Handed(bundles, member, posts[i].channel, posts[i].gk) then
                Some(posts[i].gk) else None
  {
    var post, keys := posts[i], KeysOf(bundles, member, posts[i].channel);
    var found := Find(keys, post.gk.generation);
    FindIs(keys, post.gk.generation);
    KeysAreThoseHanded(bundles, member, post.channel, post.gk);
    if found.Some? {
      KeysAreThoseHanded(bundles, member, post.channel, found.value);
      var j :| 0 <= j < |bundles| && bundles[j] == Bundle(member, found.value, post.channel);
      assert bundles[j].gk == post.gk;
    }
    hide KeysOf, Find;
  }

  /**
   Whatever keys were ever handed out: a member opens a post, at its channel and position, exactly if the key of the
   post's generation was handed to it; otherwise the answer is `unknown_generation`.
   */
  lemma MembersOpenTheirGenerations(seal: Seal, bundles: seq<Bundle>, posts: seq<Post>, member: Bytes, i: nat)
    requires IsCipher(seal) && WellMade(bundles) && OneKeyPerGeneration(bundles, posts) && i < |posts|
    requires |posts[i].nonce| == NONCE_BYTES && EncryptBody(seal, posts[i]).Some?
    ensures var post, body := posts[i], EncryptBody(seal, posts[i]).value;
            DecryptBody(seal, posts, KeysOf(bundles, member, post.channel), post.channel, post.position, body) ==
            if Handed(bundles, member, post.channel, post.gk) then Ok(Plain(post.plaintext, post.gk.generation))
            else Err(UnknownGeneration)
  {
    var post, body := posts[i], EncryptBody(seal, posts[i]).value;
    var keys := KeysOf(bundles, member, post.channel);
    FoundKey(bundles, posts, member, i);
    BodyLayout(seal, post);
    hide KeysOf, IsCipher, EncryptBody, BodyAad, Opened, FromU32, OneKeyPerGeneration;
    if Handed(bundles, member, post.channel, post.gk) {
      PostsOpen(seal, posts, keys, post.channel, post.position, body, Plain(post.plaintext, post.gk.generation), i);
    }
  }

  /** A post's body opens nowhere but at its own channel and position, whatever keys are held. */
  lemma PostsOpenAtTheirPlace(seal: Seal, posts: seq<Post>, keys: seq<GroupKey>, channel: Bytes, position: int, i: nat,
      plain: Plain)
    requires IsCipher(seal) && FreshNonces(posts) && i < |posts| && EncryptBody(seal, posts[i]).Some?
    requires forall j :: 0 <= j < |posts| ==> |posts[j].nonce| == NONCE_BYTES
    requires DecryptBody(seal, posts, keys, channel, position, EncryptBody(seal, posts[i]).value) == Ok(plain)
    ensures channel == posts[i].channel && position == posts[i].position &&
            plain == Plain(posts[i].plaintext, posts[i].gk.generation)
  {
    var body := EncryptBody(seal, posts[i]).value;
    hide DecryptBody, IsCipher, EncryptBody;
    OpensOnlyPosts(seal, posts, keys, channel, position, body, plain);
    var j :| 0 <= j < |posts| && OpensAs(seal, posts[j], keys, channel, position, body, plain);
    BodyLayout(seal, posts[i]);
    BodyLayout(seal, posts[j]);
    assert posts[i].nonce == posts[j].nonce;
  }

  // ----- the fetch key

  /** What the fetch key is derived from: key material, salt and info. */
  datatype FetchInput = FetchInput(material: Bytes, salt: Bytes, info: Text)

  function FetchInputOf(key: Bytes, generation: nat, channel: Bytes): FetchInput {
    FetchInput(key, channel, FETCH_KEY_INFO + ([COLON] + Decimal(generation)))
  }

  /** Another key, channel or generation derives from another input. */
  lemma FetchInputsDiffer(key: Bytes, g: nat, channel: Bytes, other: Bytes, h: nat, elsewhere: Bytes)
    requires FetchInputOf(key, g, channel) == FetchInputOf(other, h, elsewhere)
    ensures key == other && g == h && channel == elsewhere
  {
    hide Decimal, FETCH_KEY_INFO;
    SplitEqual(FETCH_KEY_INFO, [COLON] + Decimal(g), FETCH_KEY_INFO, [COLON] + Decimal(h));
    SplitEqual([COLON], Decimal(g), [COLON], Decimal(h));
    DecimalInjective(g, h);
  }
}
