/**
 The signed on-ramp intent: a canonical JSON payload and a keyed hash of it, both in base64url.

 The keyed hash is a parameter with 32-byte values; addresses are already checked and lower-cased.
 */
module OnRampIntent {
  import opened Options
  import opened IntentJson
  import Base64Url

  type Byte = Base64Url.Byte

  type Key = int

  /** The ten members of an intent: asset, chain, expiry and issue times, nonce, provider, token,
      user, version and wallet. */
  datatype Payload = Payload(a: Value, c: Value, exp: Value, iat: Value, n: Value, p: Value, t: Value, u: Value,
                             v: Value, w: Value)

  type Mac = (Key, string) -> seq<Byte>

  ghost predicate Is32Bytes(mac: Mac) {
    forall key, message :: |mac(key, message)| == 32
  }

  datatype Error = NotPrivana | TooLarge | Malformed | SignatureMismatch | Invalid | Expired

  datatype Result<T> = Ok(value: T) | Err(error: Error)

  const INTENT_VERSION := 1
  const INTENT_PREFIX := "privana_"
  const INTENT_MAX_LENGTH := 512
  const INTENT_TTL_SECONDS := 86400
  const INTENT_MAX_ASSET_BYTES := 32
  const UINT32_MAX := 0xFFFF_FFFF
  const FIELDS: seq<string> := ["a", "c", "exp", "iat", "n", "p", "t", "u", "v", "w"]

  // ----- fields -----

  function LowerChar(c: char): char {
    if 'A' <= c <= 'Z' then (c as int + 32) as char
    else if c == '\U{212A}' then 'k'   // the Kelvin sign
    else c
  }

  function Lower(s: string): (r: string)
    ensures |r| == |s|
  {
    seq(|s|, i requires 0 <= i < |s| => LowerChar(s[i]))
  }

  /** Lower-case hex digits of the given number of bytes. */
  predicate IsHex(s: string, byteLength: nat) {
    |s| == 2 * byteLength && forall i :: 0 <= i < |s| ==> IsHexDigit(s[i])
  }

  /** The whitespace that the hex reader skips. */
  predicate IsHexSpace(c: char) {
    c == ' ' || '\t' <= c <= '\r'
  }

  /** What the hex reader takes: pairs of digits, with whitespace anywhere but inside a pair. */
  predicate ReadsAsHex(s: string) {
    || s == ""
    || (IsHexSpace(s[0]) && ReadsAsHex(s[1..]))
    || (|s| >= 2 && IsHexDigit(s[0]) && IsHexDigit(s[1]) && ReadsAsHex(s[2..]))
  }

  function HexPayload(text: string, byteLength: nat): Option<string> {
    var lowered := Lower(text);
    var stripped := if "0x" <= lowered then lowered[2..] else lowered;
    if |stripped| == 2 * byteLength && ReadsAsHex(stripped) then Some(stripped) else None
  }

  predicate IsSpace(c: char) {
    var n := c as int;
    9 <= n <= 13 || 28 <= n <= 32 || n == 0x85 || n == 0xA0 || n == 0x1680 || 0x2000 <= n <= 0x200A
    || n == 0x2028 || n == 0x2029 || n == 0x202F || n == 0x205F || n == 0x3000
  }

  function TrimLeft(s: string): string {
    if s != "" && IsSpace(s[0]) then TrimLeft(s[1..]) else s
  }

  function TrimRight(s: string): string {
    if s != "" && IsSpace(s[|s| - 1]) then TrimRight(s[..|s| - 1]) else s
  }

  predicate IsAssetChar(c: char) {
    'a' <= c <= 'z' || '0' <= c <= '9' || c == '.' || c == '_' || c == ':' || c == '-'
  }

  predicate IsAsset(s: string) {
    && 1 <= |s| <= INTENT_MAX_ASSET_BYTES
    && ('a' <= s[0] <= 'z' || '0' <= s[0] <= '9')
    && forall i :: 0 <= i < |s| ==> IsAssetChar(s[i])
  }

  function AssetCode(text: string): Option<string> {
    var code := Lower(TrimRight(TrimLeft(text)));
    if IsAsset(code) then Some(code) else None
  }

  predicate IsUint32(v: Value) {
    v.Number? && v.number <= UINT32_MAX
  }

  predicate IsHexField(v: Value, byteLength: nat) {
    v.Text? && |v.text| == 2 * byteLength && ReadsAsHex(v.text)
  }

  predicate IsProvider(s: string) {
    s == "moonpay" || s == "transak"
  }

  predicate Valid(p: Payload) {
    && p.v == Number(INTENT_VERSION)
    && p.p.Text? && IsProvider(p.p.text)
    && IsHexField(p.u, 20) && IsHexField(p.w, 20) && IsHexField(p.t, 32) && IsHexField(p.n, 8)
    && IsUint32(p.c) && IsUint32(p.iat) && IsUint32(p.exp)
    && p.iat.number <= p.exp.number
    && p.a.Text? && IsAsset(p.a.text)
  }

  // ----- the JSON payload -----

  /** The members in key order. */
  function Members(p: Payload): seq<Member> {
    [(FIELDS[0], p.a), (FIELDS[1], p.c), (FIELDS[2], p.exp), (FIELDS[3], p.iat), (FIELDS[4], p.n),
     (FIELDS[5], p.p), (FIELDS[6], p.t), (FIELDS[7], p.u), (FIELDS[8], p.v), (FIELDS[9], p.w)]
  }

  /** An object must have exactly the ten keys. */
  function ToPayload(members: seq<Member>): Option<Payload> {
    var m := ToMap(members);
    if (forall i :: 0 <= i < 10 ==> FIELDS[i] in m) && (forall k :: k in m ==> k in FIELDS) then
      Some(Payload(m[FIELDS[0]], m[FIELDS[1]], m[FIELDS[2]], m[FIELDS[3]], m[FIELDS[4]],
                   m[FIELDS[5]], m[FIELDS[6]], m[FIELDS[7]], m[FIELDS[8]], m[FIELDS[9]]))
    else None
  }

  function Ascii(s: string): (b: seq<Byte>)
    requires AllAscii(s)
    ensures |b| == |s| && forall i :: 0 <= i < |b| ==> b[i] == s[i] as int
  {
    seq(|s|, i requires 0 <= i < |s| => s[i] as int)
  }

  function Decoded(b: seq<Byte>): (r: Option<string>)
    ensures r.Some? ==> |r.value| == |b| && forall i :: 0 <= i < |b| ==> r.value[i] as int == b[i]
  {
    if forall i :: 0 <= i < |b| ==> b[i] < 128 then Some(seq(|b|, i requires 0 <= i < |b| => b[i] as char)) else None
  }

  function JsonPayload(p: Payload): seq<Byte>
    requires Valid(p)
  {
    MembersAreAscii(p);
    PrintIsAscii(Members(p));
    Ascii(Print(Members(p)))
  }

  function DecodePayload(b: seq<Byte>): Option<Payload> {
    match Decoded(b)
    case None => None
    case Some(text) =>
      match Parse(text)
      case None => None
      case Some(members) => ToPayload(members)
  }

  // ----- the token -----

  /** The parts on either side of the only dot. */
  function Split(s: string): Option<(string, string)> {
    if s == "" then None
    else if s[0] == '.' then (if '.' in s[1..] then None else Some(("", s[1..])))
    else
      match Split(s[1..])
      case None => None
      case Some(parts) => Some(([s[0]] + parts.0, parts.1))
  }

  function Signature(payload64: string, key: Key, mac: Mac): seq<Byte> {
    mac(key, "privana:onramp:intent:v1:" + payload64)
  }

  /** A payload's bytes and their signature, as one token. */
  function Sealed(payloadBytes: seq<Byte>, key: Key, mac: Mac): string {
    var payload64 := Base64Url.Encode(payloadBytes);
    INTENT_PREFIX + (payload64 + "." + Base64Url.Encode(Signature(payload64, key, mac)))
  }

  function Token(p: Payload, key: Key, mac: Mac): string
    requires Valid(p)
  {
    Sealed(JsonPayload(p), key, mac)
  }

  function EncodeIntent(p: Payload, key: Key, mac: Mac): Result<string> {
    if !Valid(p) then Err(Invalid)
    else
      var token := Token(p, key, mac);
      if |token| > INTENT_MAX_LENGTH then Err(TooLarge) else Ok(token)
  }

  function DecodeIntent(token: string, keys: seq<Key>, now: int, allowExpired: bool, mac: Mac): Result<Payload> {
    if !(INTENT_PREFIX <= token) then Err(NotPrivana)
    else if |token| > INTENT_MAX_LENGTH then Err(TooLarge)
    else
      match Split(token[|INTENT_PREFIX|..])
      case None => Err(Malformed)
      case Some(parts) => DecodeParts(parts.0, parts.1, keys, now, allowExpired, mac)
  }

  function DecodeParts(payload64: string, signature64: string, keys: seq<Key>, now: int, allowExpired: bool,
                       mac: Mac): Result<Payload> {
    match Verified(payload64, signature64, keys, mac)
    case Err(e) => Err(e)
    case Ok(payloadBytes) => Opened(payloadBytes, now, allowExpired)
  }

  function Verified(payload64: string, signature64: string, keys: seq<Key>, mac: Mac): Result<seq<Byte>> {
    Checked(payload64, Base64Url.Decode(payload64), Base64Url.Decode(signature64), keys, mac)
  }

  /** The payload's bytes, if both parts decoded and a retained key accounts for the signature. */
  function Checked(payload64: string, payloadBytes: Option<seq<Byte>>, signature: Option<seq<Byte>>, keys: seq<Key>,
                   mac: Mac): Result<seq<Byte>> {
    if payloadBytes.None? || signature.None? then Err(Malformed)
    else if |signature.value| != 32 then Err(Malformed)
    else if !(exists key :: key in keys && Signature(payload64, key, mac) == signature.value) then
      Err(SignatureMismatch)
    else Ok(payloadBytes.value)
  }

  /** A payload whose signature matched: it must still be valid, canonical and unexpired. */
  function Opened(payloadBytes: seq<Byte>, now: int, allowExpired: bool): Result<Payload> {
    match DecodePayload(payloadBytes)
    case None => Err(Malformed)
    case Some(p) =>
      if !Valid(p) then Err(Invalid)
      else if payloadBytes != JsonPayload(p) then Err(Malformed)
      else if !allowExpired && p.exp.number < now then Err(Expired)
      else Ok(p)
  }

  /** The payload of a new intent, or None for a bad field.  The wallet and user addresses are None
      when they are no addresses. */
  function NewPayload(provider: string, user: Option<string>, wallet: Option<string>, tokenId: string, chainId: int,
                      asset: string, now: int, nonce: string): Option<Payload>
  {
    var token, code := HexPayload(tokenId, 32), AssetCode(asset);
    if !IsProvider(provider) || user.None? || wallet.None? || token.None? || code.None? then None
    else if !(0 <= chainId <= UINT32_MAX) || !(0 <= now && now + INTENT_TTL_SECONDS <= UINT32_MAX) then None
    else
      Some(Payload(Text(code.value), Number(chainId), Number(now + INTENT_TTL_SECONDS), Number(now), Text(nonce),
                   Text(provider), Text(token.value), Text(user.value), Number(INTENT_VERSION), Text(wallet.value)))
  }

  function CreateIntent(provider: string, user: Option<string>, wallet: Option<string>, tokenId: string, chainId: int,
                        asset: string, now: int, nonce: string, key: Key, mac: Mac): Result<(string, Payload)>
  {
    match NewPayload(provider, user, wallet, tokenId, chainId, asset, now, nonce)
    case None => Err(Invalid)
    case Some(p) =>
      match EncodeIntent(p, key, mac)
      case Err(e) => Err(e)
      case Ok(minted) => Ok((minted, p))
  }

  // ----- fields in canonical form -----

  lemma {:induction false} HexCharacters(s: string)
    requires ReadsAsHex(s)
    ensures forall i :: 0 <= i < |s| ==> IsHexDigit(s[i]) || IsHexSpace(s[i])
    ensures |s| >= 2 ==> s[1] != 'x'
  {
    if s != "" {
      if IsHexSpace(s[0]) {
        HexCharacters(s[1..]);
        assert s == [s[0]] + s[1..];
      } else {
        HexCharacters(s[2..]);
        assert s == s[..2] + s[2..];
      }
    }
  }

  lemma {:induction false} DigitsReadAsHex(s: string)
    requires |s| % 2 == 0 && forall i :: 0 <= i < |s| ==> IsHexDigit(s[i])
    ensures ReadsAsHex(s)
  {
    if s != "" {
      DigitsReadAsHex(s[2..]);
    }
  }

  lemma {:induction false} PairedDigits(s: string)
    requires ReadsAsHex(s) && Spaceless(s)
    ensures |s| % 2 == 0 && forall i :: 0 <= i < |s| ==> IsHexDigit(s[i])
  {
    HexCharacters(s);
    if s != "" {
      PairedDigits(s[2..]);
    }
  }

  lemma HexIsNormal(s: string)
    requires ReadsAsHex(s)
    ensures Lower(s) == s && !("0x" <= s)
  {
    HexCharacters(s);
    assert Lower(s) == s;
  }

  predicate Spaceless(s: string) {
    forall i :: 0 <= i < |s| ==> !IsHexSpace(s[i])
  }

  lemma SpacelessHex(s: string, byteLength: nat)
    ensures IsHex(s, byteLength) <==> |s| == 2 * byteLength && ReadsAsHex(s) && Spaceless(s)
  {
    if IsHex(s, byteLength) {
      DigitsReadAsHex(s);
    }
    if ReadsAsHex(s) && Spaceless(s) {
      PairedDigits(s);
    }
  }

  lemma KeptHex(s: string, byteLength: nat)
    ensures HexPayload(s, byteLength) == Some(s) <==> |s| == 2 * byteLength && ReadsAsHex(s)
  {
    if ReadsAsHex(s) {
      HexIsNormal(s);
    }
  }

  /** Validation keeps a hex field only in its own normal form: of its length and readable as
      lower-case hex.  Without whitespace that is its digits. */
  lemma NormalHex(s: string, byteLength: nat)
    ensures HexPayload(s, byteLength) == Some(s) <==> |s| == 2 * byteLength && ReadsAsHex(s)
    ensures IsHex(s, byteLength) <==> HexPayload(s, byteLength) == Some(s) && Spaceless(s)
  {
    KeptHex(s, byteLength);
    SpacelessHex(s, byteLength);
  }

  /** Likewise an asset code. */
  lemma NormalAsset(s: string)
    ensures AssetCode(s) == Some(s) <==> IsAsset(s)
  {
    if IsAsset(s) {
      assert IsAssetChar(s[0]) && IsAssetChar(s[|s| - 1]);
      assert Lower(s) == s;
    }
  }

  /** The same letter in lower case; the Kelvin sign is a K. */
  predicate LowerOf(c: char, d: char) {
    if 'A' <= c <= 'Z' then d as int == c as int + 32 else d == if c == '\U{212A}' then 'k' else c
  }

  predicate LowerCaseOf(text: string, lowered: string) {
    |lowered| == |text| && forall i :: 0 <= i < |text| ==> LowerOf(text[i], lowered[i])
  }

  lemma LowerIsExact(text: string, lowered: string)
    ensures Lower(text) == lowered <==> LowerCaseOf(text, lowered)
  {
    if LowerCaseOf(text, lowered) {
      assert Lower(text) == lowered;
    }
  }

  /** A hex argument is accepted with or without its prefix and in either case: the payload is its
      lower-case digits. */
  lemma HexPayloadIsExact(text: string, byteLength: nat, hex: string)
    ensures HexPayload(text, byteLength) == Some(hex) <==>
              && |hex| == 2 * byteLength && ReadsAsHex(hex)
              && (LowerCaseOf(text, hex) || LowerCaseOf(text, "0x" + hex))
  {
    var lowered := Lower(text);
    LowerIsExact(text, hex);
    LowerIsExact(text, "0x" + hex);
    if "0x" <= lowered {
      assert lowered == "0x" + lowered[2..];
    }
    if ReadsAsHex(hex) {
      HexIsNormal(hex);
    }
  }

  predicate Blank(s: string) {
    forall i :: 0 <= i < |s| ==> IsSpace(s[i])
  }

  lemma {:induction false} TrimLeftIsExact(s: string) returns (blank: string)
    ensures s == blank + TrimLeft(s) && Blank(blank)
    ensures TrimLeft(s) != "" ==> !IsSpace(TrimLeft(s)[0])
  {
    blank := "";
    if s != "" && IsSpace(s[0]) {
      blank := TrimLeftIsExact(s[1..]);
      blank := [s[0]] + blank;
    }
  }

  lemma {:induction false} TrimRightIsExact(s: string) returns (blank: string)
    ensures s == TrimRight(s) + blank && Blank(blank)
    ensures TrimRight(s) != "" ==> !IsSpace(TrimRight(s)[|TrimRight(s)| - 1]) && TrimRight(s)[0] == s[0]
  {
    blank := "";
    if s != "" && IsSpace(s[|s| - 1]) {
      blank := TrimRightIsExact(s[..|s| - 1]);
      blank := blank + [s[|s| - 1]];
    }
  }

  /** The text is the code in some mixture of cases, between blanks. */
  ghost predicate SpellsCode(text: string, code: string) {
    exists before, middle, after :: SpelledAs(text, code, before, middle, after)
  }

  predicate SpelledAs(text: string, code: string, before: string, middle: string, after: string) {
    text == before + middle + after && Blank(before) && Blank(after) && LowerCaseOf(middle, code)
  }

  lemma {:induction false} TrimLeftDrops(before: string, rest: string)
    requires Blank(before) && (rest != "" ==> !IsSpace(rest[0]))
    ensures TrimLeft(before + rest) == rest
  {
    if before != "" {
      assert (before + rest)[1..] == before[1..] + rest;
      TrimLeftDrops(before[1..], rest);
    } else {
      assert before + rest == rest;
    }
  }

  lemma {:induction false} TrimRightDrops(rest: string, after: string)
    requires Blank(after) && (rest != "" ==> !IsSpace(rest[|rest| - 1]))
    ensures TrimRight(rest + after) == rest
  {
    if after != "" {
      var s := rest + after;
      assert s[..|s| - 1] == rest + after[..|after| - 1];
      TrimRightDrops(rest, after[..|after| - 1]);
    } else {
      assert rest + after == rest;
    }
  }

  /** An asset argument is accepted with blanks around it and in any case: the payload is the code in
      lower case. */
  lemma AssetCodeIsExact(text: string, code: string)
    ensures AssetCode(text) == Some(code) <==> IsAsset(code) && SpellsCode(text, code)
  {
    if AssetCode(text) == Some(code) {
      var before := TrimLeftIsExact(text);
      var after := TrimRightIsExact(TrimLeft(text));
      LowerIsExact(TrimRight(TrimLeft(text)), code);
      assert SpelledAs(text, code, before, TrimRight(TrimLeft(text)), after);
    }
    if IsAsset(code) && SpellsCode(text, code) {
      var before, middle, after :| SpelledAs(text, code, before, middle, after);
      assert IsAssetChar(code[0]) && IsAssetChar(code[|code| - 1]);
      assert LowerOf(middle[0], code[0]) && LowerOf(middle[|middle| - 1], code[|code| - 1]);
      assert text == before + (middle + after);
      TrimLeftDrops(before, middle + after);
      TrimRightDrops(middle, after);
      LowerIsExact(middle, code);
    }
  }

  /** A payload is valid exactly when its version and provider are known, every hex field and the asset
      code are their own normal forms, and its numbers are in range with expiry after issue. */
  lemma ValidIsNormal(p: Payload)
    ensures Valid(p) <==>
              && p.v == Number(1) && (p.p == Text("moonpay") || p.p == Text("transak"))
              && p.u.Text? && HexPayload(p.u.text, 20) == Some(p.u.text)
              && p.w.Text? && HexPayload(p.w.text, 20) == Some(p.w.text)
              && p.t.Text? && HexPayload(p.t.text, 32) == Some(p.t.text)
              && p.n.Text? && HexPayload(p.n.text, 8) == Some(p.n.text)
              && p.a.Text? && AssetCode(p.a.text) == Some(p.a.text)
              && p.c.Number? && p.c.number <= 4294967295
              && p.iat.Number? && p.exp.Number? && p.iat.number <= p.exp.number <= 4294967295
  {
    NormalFields(p);
  }

  lemma NormalFields(p: Payload)
    ensures p.u.Text? ==> (HexPayload(p.u.text, 20) == Some(p.u.text) <==> IsHexField(p.u, 20))
    ensures p.w.Text? ==> (HexPayload(p.w.text, 20) == Some(p.w.text) <==> IsHexField(p.w, 20))
    ensures p.t.Text? ==> (HexPayload(p.t.text, 32) == Some(p.t.text) <==> IsHexField(p.t, 32))
    ensures p.n.Text? ==> (HexPayload(p.n.text, 8) == Some(p.n.text) <==> IsHexField(p.n, 8))
    ensures p.a.Text? ==> (AssetCode(p.a.text) == Some(p.a.text) <==> IsAsset(p.a.text))
  {
    if p.u.Text? { KeptHex(p.u.text, 20); }
    if p.w.Text? { KeptHex(p.w.text, 20); }
    if p.t.Text? { KeptHex(p.t.text, 32); }
    if p.n.Text? { KeptHex(p.n.text, 8); }
    if p.a.Text? { NormalAsset(p.a.text); }
  }

  lemma FieldsAscend()
    ensures forall i :: 0 <= i < 10 ==> AllPlain(FIELDS[i]) && FIELDS[i] != ""
    ensures forall i, j :: 0 <= i < j < 10 ==> FIELDS[i][0] < FIELDS[j][0]
  {
    assert FIELDS[0][0] < FIELDS[1][0] < FIELDS[2][0] < FIELDS[3][0] < FIELDS[4][0] < FIELDS[5][0]
           < FIELDS[6][0] < FIELDS[7][0] < FIELDS[8][0] < FIELDS[9][0];
  }

  lemma {:induction false} HexIsAscii(s: string)
    requires ReadsAsHex(s)
    ensures AllAscii(s)
  {
    HexCharacters(s);
  }

  lemma MembersAreAscii(p: Payload)
    requires Valid(p)
    ensures AllAsciiMembers(Members(p))
  {
    HexIsAscii(p.u.text);
    HexIsAscii(p.w.text);
    HexIsAscii(p.t.text);
    HexIsAscii(p.n.text);
    FieldsAscend();
  }

  lemma MemberIsAscii(m: Member)
    requires IsAsciiMember(m)
    ensures AllAscii(PrintMember(m))
  {
    assert AllAscii(PrintText(m.0));
    assert AllAscii(PrintValue(m.1));
  }

  lemma {:induction false} RestIsAscii(members: seq<Member>)
    requires AllAsciiMembers(members)
    ensures AllAscii(PrintRest(members))
  {
    if members != [] {
      MemberIsAscii(members[0]);
      RestIsAscii(members[1..]);
    }
  }

  lemma PrintIsAscii(members: seq<Member>)
    requires AllAsciiMembers(members)
    ensures AllAscii(Print(members))
  {
    if members != [] {
      MemberIsAscii(members[0]);
      RestIsAscii(members[1..]);
    }
  }

  // ----- the payload survives the JSON round trip -----

  lemma {:induction false} MapOfDistinct(members: seq<Member>)
    requires forall i, j :: 0 <= i < j < |members| ==> members[i].0 != members[j].0
    ensures forall i :: 0 <= i < |members| ==>
              members[i].0 in ToMap(members) && ToMap(members)[members[i].0] == members[i].1
    ensures forall k :: k in ToMap(members) ==> exists i :: 0 <= i < |members| && members[i].0 == k
  {
    if members != [] {
      MapOfDistinct(members[..|members| - 1]);
    }
  }

  lemma KeysOfMembers(p: Payload)
    ensures forall i :: 0 <= i < 10 ==> Members(p)[i].0 == FIELDS[i]
  {
  }

  lemma MapOfMembers(p: Payload)
    ensures forall i :: 0 <= i < 10 ==>
              FIELDS[i] in ToMap(Members(p)) && ToMap(Members(p))[FIELDS[i]] == Members(p)[i].1
    ensures forall k :: k in ToMap(Members(p)) ==> k in FIELDS
  {
    KeysOfMembers(p);
    FieldsAscend();
    MapOfDistinct(Members(p));
  }

  lemma PayloadOfMembers(p: Payload)
    ensures ToPayload(Members(p)) == Some(p)
  {
    MapOfMembers(p);
  }

  lemma DecodedAscii(text: string)
    requires AllAscii(text)
    ensures Decoded(Ascii(text)) == Some(text)
  {
    var b := Ascii(text);
    assert forall i :: 0 <= i < |b| ==> b[i] < 128;
    var r := Decoded(b);
    assert r.Some?;
    assert r.value == text;
  }

  lemma DecodePrintedPayload(p: Payload)
    requires Valid(p)
    ensures DecodePayload(JsonPayload(p)) == Some(p)
  {
    MembersAreAscii(p);
    PrintIsAscii(Members(p));
    ParsePrint(Members(p));
    PayloadOfMembers(p);
    DecodedAscii(Print(Members(p)));
  }

  // ----- splitting at the dot -----

  lemma {:induction false} SplitJoined(a: string, b: string)
    requires '.' !in a && '.' !in b
    ensures Split(a + "." + b) == Some((a, b))
  {
    var s := a + "." + b;
    if a == "" {
      assert s[1..] == b;
    } else {
      assert s[1..] == a[1..] + "." + b;
      SplitJoined(a[1..], b);
      assert [a[0]] + a[1..] == a;
    }
  }

  lemma {:induction false} SplitRejoins(s: string)
    requires Split(s).Some?
    ensures s == Split(s).value.0 + "." + Split(s).value.1
  {
    if s[0] == '.' {
      assert s == "" + "." + s[1..];
    } else {
      SplitRejoins(s[1..]);
      assert s == [s[0]] + s[1..];
    }
  }

  // ----- the token: printer and parser undo each other -----

  predicate Current(p: Payload, now: int, allowExpired: bool)
    requires Valid(p)
  {
    allowExpired || p.exp.number >= now
  }

  lemma SealedShape(b: seq<Byte>, key: Key, mac: Mac)
    ensures var payload64 := Base64Url.Encode(b);
            var token := Sealed(b, key, mac);
            && INTENT_PREFIX <= token
            && Split(token[|INTENT_PREFIX|..]) == Some((payload64, Base64Url.Encode(Signature(payload64, key, mac))))
  {
    var payload64 := Base64Url.Encode(b);
    var signature64 := Base64Url.Encode(Signature(payload64, key, mac));
    Base64Url.EncodedLength(b);
    Base64Url.EncodedLength(Signature(payload64, key, mac));
    SplitJoined(payload64, signature64);
    assert Sealed(b, key, mac)[|INTENT_PREFIX|..] == payload64 + "." + signature64;
  }

  lemma SealedLength(b: seq<Byte>, key: Key, mac: Mac)
    requires Is32Bytes(mac)
    ensures |Sealed(b, key, mac)| == 52 + (4 * |b| + 2) / 3
  {
    var payload64 := Base64Url.Encode(b);
    Base64Url.EncodedLength(b);
    Base64Url.EncodedLength(Signature(payload64, key, mac));
  }

  lemma MatchIsChecked(payload64: string, b: seq<Byte>, key: Key, keys: seq<Key>, mac: Mac)
    requires Is32Bytes(mac) && key in keys
    ensures Checked(payload64, Some(b), Some(Signature(payload64, key, mac)), keys, mac) == Ok(b)
  {
    assert |Signature(payload64, key, mac)| == 32;
  }

  lemma SealIsVerified(b: seq<Byte>, key: Key, keys: seq<Key>, mac: Mac)
    requires Is32Bytes(mac) && b != [] && key in keys
    ensures var payload64 := Base64Url.Encode(b);
            Verified(payload64, Base64Url.Encode(Signature(payload64, key, mac)), keys, mac) == Ok(b)
  {
    var payload64 := Base64Url.Encode(b);
    var signature := Signature(payload64, key, mac);
    assert signature != [];
    Base64Url.DecodeEncode(b);
    Base64Url.DecodeEncode(signature);
    MatchIsChecked(payload64, b, key, keys, mac);
  }

  lemma OpenSealed(b: seq<Byte>, key: Key, keys: seq<Key>, now: int, allowExpired: bool, mac: Mac)
    requires Is32Bytes(mac) && b != [] && key in keys && |Sealed(b, key, mac)| <= INTENT_MAX_LENGTH
    ensures DecodeIntent(Sealed(b, key, mac), keys, now, allowExpired, mac) == Opened(b, now, allowExpired)
  {
    SealedShape(b, key, mac);
    SealIsVerified(b, key, keys, mac);
  }

  lemma VerifiedIsSealed(payload64: string, signature64: string, keys: seq<Key>, mac: Mac) returns (key: Key)
    requires Verified(payload64, signature64, keys, mac).Ok?
    ensures var b := Verified(payload64, signature64, keys, mac).value;
            key in keys && INTENT_PREFIX + (payload64 + "." + signature64) == Sealed(b, key, mac)
  {
    Base64Url.EncodeDecode(payload64);
    Base64Url.EncodeDecode(signature64);
    key :| key in keys && Signature(payload64, key, mac) == Base64Url.Decode(signature64).value;
  }

  /** Decoding a token made with any retained key gives its payload back, or finds it too long or
      expired. */
  lemma DecodeToken(p: Payload, key: Key, keys: seq<Key>, now: int, allowExpired: bool, mac: Mac)
    requires Is32Bytes(mac) && Valid(p) && key in keys
    ensures DecodeIntent(Token(p, key, mac), keys, now, allowExpired, mac)
            == if |Token(p, key, mac)| > INTENT_MAX_LENGTH then Err(TooLarge)
               else if Current(p, now, allowExpired) then Ok(p)
               else Err(Expired)
  {
    if |Token(p, key, mac)| <= INTENT_MAX_LENGTH {
      PrintLength(p);
      OpenSealed(JsonPayload(p), key, keys, now, allowExpired, mac);
      OpenPrinted(p, now, allowExpired);
    } else {
      SealedShape(JsonPayload(p), key, mac);
    }
  }

  lemma OpenPrinted(p: Payload, now: int, allowExpired: bool)
    requires Valid(p)
    ensures Opened(JsonPayload(p), now, allowExpired) == if Current(p, now, allowExpired) then Ok(p) else Err(Expired)
  {
    DecodePrintedPayload(p);
  }

  lemma Reassembled(token: string, a: string, b: string)
    requires INTENT_PREFIX <= token && Split(token[|INTENT_PREFIX|..]) == Some((a, b))
    ensures token == INTENT_PREFIX + (a + "." + b)
  {
    SplitRejoins(token[|INTENT_PREFIX|..]);
    assert token == INTENT_PREFIX + token[|INTENT_PREFIX|..];
  }

  lemma AcceptedIsSealed(token: string, keys: seq<Key>, now: int, allowExpired: bool, mac: Mac)
    returns (b: seq<Byte>, key: Key)
    requires DecodeIntent(token, keys, now, allowExpired, mac).Ok?
    ensures key in keys && token == Sealed(b, key, mac)
    ensures DecodeIntent(token, keys, now, allowExpired, mac) == Opened(b, now, allowExpired)
  {
    var parts := Split(token[|INTENT_PREFIX|..]).value;
    Reassembled(token, parts.0, parts.1);
    key := VerifiedIsSealed(parts.0, parts.1, keys, mac);
    b := Verified(parts.0, parts.1, keys, mac).value;
  }

  lemma OpenedIsCanonical(b: seq<Byte>, now: int, allowExpired: bool)
    requires Opened(b, now, allowExpired).Ok?
    ensures var p := Opened(b, now, allowExpired).value;
            Valid(p) && Current(p, now, allowExpired) && b == JsonPayload(p)
  {
  }

  /** Whatever decodes is, character for character, what minting makes of its payload under a
      retained key. */
  lemma AcceptedIsMinted(token: string, keys: seq<Key>, now: int, allowExpired: bool, mac: Mac)
    requires DecodeIntent(token, keys, now, allowExpired, mac).Ok?
    ensures var p := DecodeIntent(token, keys, now, allowExpired, mac).value;
            && Valid(p) && Current(p, now, allowExpired)
            && exists key :: key in keys && EncodeIntent(p, key, mac) == Ok(token)
  {
    var b, key := AcceptedIsSealed(token, keys, now, allowExpired, mac);
    OpenedIsCanonical(b, now, allowExpired);
  }

  /** The codec in one line: the accepted tokens of a payload are exactly those minted for it with a
      retained key, while it is current. */
  lemma DecodesExactlyWhatWasMinted(token: string, p: Payload, keys: seq<Key>, now: int, allowExpired: bool, mac: Mac)
    requires Is32Bytes(mac)
    ensures DecodeIntent(token, keys, now, allowExpired, mac) == Ok(p) <==>
              && Valid(p) && Current(p, now, allowExpired)
              && exists key :: key in keys && EncodeIntent(p, key, mac) == Ok(token)
  {
    if DecodeIntent(token, keys, now, allowExpired, mac) == Ok(p) {
      AcceptedIsMinted(token, keys, now, allowExpired, mac);
    }
    if Valid(p) && Current(p, now, allowExpired)
       && (exists key :: key in keys && EncodeIntent(p, key, mac) == Ok(token)) {
      var key :| key in keys && EncodeIntent(p, key, mac) == Ok(token);
      DecodeToken(p, key, keys, now, allowExpired, mac);
    }
  }

  // ----- lengths -----

  function Pow10(k: nat): nat {
    if k == 0 then 1 else 10 * Pow10(k - 1)
  }

  lemma {:induction false} NumberLength(n: nat, k: nat)
    requires k >= 1 && n < Pow10(k)
    ensures |PrintNumber(n)| <= k
    ensures n >= Pow10(k - 1) && (k > 1 || n > 0) ==> |PrintNumber(n)| == k
  {
    if n >= 10 {
      assert k > 1;
      NumberLength(n / 10, k - 1);
    } else if k > 1 {
      PowAtLeastTen(k - 1);
    }
  }

  lemma {:induction false} PowAtLeastTen(k: nat)
    requires k >= 1
    ensures Pow10(k) >= 10
  {
    if k > 1 {
      PowAtLeastTen(k - 1);
    }
  }

  lemma TenDigits(n: nat)
    requires n <= UINT32_MAX
    ensures |PrintNumber(n)| <= 10
    ensures n == UINT32_MAX ==> |PrintNumber(n)| == 10
  {
    assert Pow10(3) == 1000;
    assert Pow10(6) == 1000000;
    assert Pow10(9) == 1000000000;
    NumberLength(n, 10);
  }

  /** The characters that escapes add to a text: one for a named escape, five for any other. */
  function Escapes(s: string): nat {
    if s == "" then 0
    else EscapeLength(s[0]) + Escapes(s[1..])
  }

  function EscapeLength(c: char): nat {
    if IsPlain(c) then 0
    else if c == '"' || c == '\\' || (8 <= c as int <= 13 && c as int != 11) then 1
    else 5
  }

  lemma PrintedCharLength(c: char)
    requires IsAscii(c)
    ensures |PrintChar(c)| == 1 + EscapeLength(c)
  {
  }

  lemma {:induction false} PrintedTextLength(s: string)
    requires AllAscii(s)
    ensures |PrintChars(s)| == |s| + Escapes(s)
  {
    if s != "" {
      PrintedCharLength(s[0]);
      PrintedTextLength(s[1..]);
    }
  }

  lemma {:induction false} NothingEscaped(s: string)
    requires AllPlain(s)
    ensures Escapes(s) == 0
  {
    if s != "" {
      NothingEscaped(s[1..]);
    }
  }

  function ValueLength(v: Value): nat {
    match v
    case Text(s) => 2 + |s| + Escapes(s)
    case Number(n) => |PrintNumber(n)|
  }

  lemma MemberLength(m: Member)
    requires IsAsciiMember(m) && AllPlain(m.0)
    ensures |PrintMember(m)| == |m.0| + 3 + ValueLength(m.1)
  {
    if m.1.Text? {
      PrintedTextLength(m.1.text);
    }
  }

  /** The members from the i-th on, with one separator each. */
  function SizeFrom(members: seq<Member>, i: nat): nat
    requires i <= |members|
    decreases |members| - i
  {
    if i == |members| then 0 else |members[i].0| + 4 + ValueLength(members[i].1) + SizeFrom(members, i + 1)
  }

  predicate PlainKeys(members: seq<Member>) {
    forall i :: 0 <= i < |members| ==> AllPlain(members[i].0)
  }

  lemma {:induction false} RestSize(members: seq<Member>, i: nat)
    requires i <= |members| && AllAsciiMembers(members) && PlainKeys(members)
    ensures |PrintRest(members[i..])| == 1 + SizeFrom(members, i)
    decreases |members| - i
  {
    if i < |members| {
      MemberLength(members[i]);
      assert members[i..][1..] == members[i + 1..];
      RestSize(members, i + 1);
    }
  }

  lemma PrintSize(members: seq<Member>)
    requires members != [] && AllAsciiMembers(members) && PlainKeys(members)
    ensures |Print(members)| == 1 + SizeFrom(members, 0)
  {
    MemberLength(members[0]);
    RestSize(members, 1);
  }

  lemma {:induction false} SizeStep(members: seq<Member>, i: nat)
    requires i < |members|
    ensures SizeFrom(members, i) == |members[i].0| + 4 + ValueLength(members[i].1) + SizeFrom(members, i + 1)
  {
  }

  lemma MembersSize(p: Payload)
    ensures SizeFrom(Members(p), 0) == 54 + ValueLength(p.a) + ValueLength(p.c) + ValueLength(p.exp)
                                       + ValueLength(p.iat) + ValueLength(p.n) + ValueLength(p.p) + ValueLength(p.t)
                                       + ValueLength(p.u) + ValueLength(p.v) + ValueLength(p.w)
  {
    var ms := Members(p);
    SizeStep(ms, 9);
    SizeStep(ms, 8);
    SizeStep(ms, 7);
    SizeStep(ms, 6);
    SizeStep(ms, 5);
    SizeStep(ms, 4);
    SizeStep(ms, 3);
    SizeStep(ms, 2);
    SizeStep(ms, 1);
    SizeStep(ms, 0);
  }

  /** The part of a payload's length that depends on its fields. */
  function VariableLength(p: Payload): nat
    requires Valid(p)
  {
    |p.a.text| + |PrintNumber(p.c.number)| + |PrintNumber(p.exp.number)| + |PrintNumber(p.iat.number)|
    + Escapes(p.n.text) + Escapes(p.t.text) + Escapes(p.u.text) + Escapes(p.w.text)
  }

  lemma FixedFields(p: Payload)
    requires Valid(p)
    ensures ValueLength(p.a) == |p.a.text| + 2 && ValueLength(p.p) == 9 && ValueLength(p.v) == 1
  {
    NothingEscaped(p.a.text);
    NothingEscaped(p.p.text);
    NumberLength(1, 1);
  }

  lemma PrintLength(p: Payload)
    requires Valid(p)
    ensures |JsonPayload(p)| == 235 + VariableLength(p)
  {
    MembersAreAscii(p);
    FieldsAscend();
    PrintSize(Members(p));
    MembersSize(p);
    FixedFields(p);
  }

  /** Without escapes a token has at most 448 characters; exactly the payloads with too many of them
      exceed that, and exactly those with yet more fail the length check. */
  lemma TokenLength(p: Payload, key: Key, mac: Mac)
    requires Is32Bytes(mac) && Valid(p)
    ensures |Token(p, key, mac)| == 52 + (942 + 4 * VariableLength(p)) / 3
    ensures |Token(p, key, mac)| <= 448 <==> VariableLength(p) <= 62
    ensures Escapes(p.n.text) + Escapes(p.t.text) + Escapes(p.u.text) + Escapes(p.w.text) == 0 ==>
              VariableLength(p) <= 62
    ensures EncodeIntent(p, key, mac) == if VariableLength(p) <= 110 then Ok(Token(p, key, mac)) else Err(TooLarge)
  {
    SealedLength(JsonPayload(p), key, mac);
    PrintLength(p);
    TenDigits(p.c.number);
    TenDigits(p.exp.number);
    TenDigits(p.iat.number);
  }

  function Zeros(n: nat): Value {
    Text(seq(n, _ => '0'))
  }

  function LongestPayload(): Payload {
    Payload(Zeros(32), Number(UINT32_MAX), Number(UINT32_MAX), Number(UINT32_MAX), Zeros(16), Text("moonpay"),
            Zeros(64), Zeros(40), Number(INTENT_VERSION), Zeros(40))
  }

  lemma PlainHex(v: Value, byteLength: nat)
    requires AreDigits(v, byteLength)
    ensures IsHexField(v, byteLength) && Escapes(v.text) == 0
  {
    DigitsReadAsHex(v.text);
    NothingEscaped(v.text);
  }

  predicate AreDigits(v: Value, byteLength: nat) {
    v.Text? && IsHex(v.text, byteLength)
  }

  lemma PlainHexFields(p: Payload)
    requires AreDigits(p.n, 8) && AreDigits(p.t, 32) && AreDigits(p.u, 20) && AreDigits(p.w, 20)
    ensures IsHexField(p.n, 8) && IsHexField(p.t, 32) && IsHexField(p.u, 20) && IsHexField(p.w, 20)
    ensures Escapes(p.n.text) + Escapes(p.t.text) + Escapes(p.u.text) + Escapes(p.w.text) == 0
  {
    PlainHex(p.n, 8);
    PlainHex(p.t, 32);
    PlainHex(p.u, 20);
    PlainHex(p.w, 20);
  }

  lemma LongFields(p: Payload)
    requires AreDigits(p.n, 8) && AreDigits(p.t, 32) && AreDigits(p.u, 20) && AreDigits(p.w, 20)
    requires p.p == Text("moonpay") && p.v == Number(INTENT_VERSION)
    requires p.a.Text? && IsAsset(p.a.text) && |p.a.text| == 32
    requires p.c == Number(UINT32_MAX) && p.iat == p.c && p.exp == p.c
    ensures Valid(p) && VariableLength(p) == 62
  {
    PlainHexFields(p);
    TenDigits(p.c.number);
  }

  lemma LongestIsValid()
    ensures Valid(LongestPayload()) && VariableLength(LongestPayload()) == 62
  {
    LongFields(LongestPayload());
  }

  /** The bound of 448 is attained without escapes. */
  lemma LongestToken(key: Key, mac: Mac)
    requires Is32Bytes(mac)
    ensures Valid(LongestPayload()) && |Token(LongestPayload(), key, mac)| == 448
  {
    LongestIsValid();
    TokenLength(LongestPayload(), key, mac);
  }

  // ----- minting -----

  /** A minted intent decodes to its own payload for exactly a day, by any ring that still retains
      the key, and after that only when expiry is waived. */
  lemma MintedIntentLastsADay(provider: string, user: Option<string>, wallet: Option<string>, tokenId: string,
                              chainId: int, asset: string, issued: int, nonce: string, key: Key, keys: seq<Key>,
                              now: int, allowExpired: bool, mac: Mac)
    requires Is32Bytes(mac) && key in keys && IsHex(nonce, 8)
    requires (user.Some? ==> IsHex(user.value, 20)) && (wallet.Some? ==> IsHex(wallet.value, 20))
    ensures var minted := CreateIntent(provider, user, wallet, tokenId, chainId, asset, issued, nonce, key, mac);
            minted.Ok? ==> DecodeIntent(minted.value.0, keys, now, allowExpired, mac)
                           == if allowExpired || now <= issued + INTENT_TTL_SECONDS then Ok(minted.value.1)
                              else Err(Expired)
  {
    var minted := CreateIntent(provider, user, wallet, tokenId, chainId, asset, issued, nonce, key, mac);
    if minted.Ok? {
      DecodeToken(minted.value.1, key, keys, now, allowExpired, mac);
    }
  }

  /** Every field can go into an intent by itself. */
  predicate GoodFields(provider: string, user: Option<string>, wallet: Option<string>, tokenId: string, chainId: int,
                       asset: string, now: int)
  {
    && IsProvider(provider) && user.Some? && wallet.Some?
    && HexPayload(tokenId, 32).Some? && AssetCode(asset).Some?
    && 0 <= chainId <= UINT32_MAX && 0 <= now <= UINT32_MAX - INTENT_TTL_SECONDS
  }

  /** The characters of an intent that its fields add to the least possible. */
  function VaryingLength(tokenId: string, chainId: nat, asset: string, now: nat): nat
    requires HexPayload(tokenId, 32).Some? && AssetCode(asset).Some?
  {
    Escapes(HexPayload(tokenId, 32).value) + |AssetCode(asset).value| + |PrintNumber(chainId)| + |PrintNumber(now)|
    + |PrintNumber(now + INTENT_TTL_SECONDS)|
  }

  lemma NewPayloadIsValid(provider: string, user: Option<string>, wallet: Option<string>, tokenId: string, chainId: int,
                          asset: string, now: int, nonce: string)
    requires IsHex(nonce, 8)
    requires (user.Some? ==> IsHex(user.value, 20)) && (wallet.Some? ==> IsHex(wallet.value, 20))
    ensures var p := NewPayload(provider, user, wallet, tokenId, chainId, asset, now, nonce);
            && (p.Some? <==> GoodFields(provider, user, wallet, tokenId, chainId, asset, now))
            && (p.Some? ==> Valid(p.value) && VariableLength(p.value) == VaryingLength(tokenId, chainId, asset, now))
  {
    var p := NewPayload(provider, user, wallet, tokenId, chainId, asset, now, nonce);
    if p.Some? {
      PlainHex(p.value.n, 8);
      PlainHex(p.value.u, 20);
      PlainHex(p.value.w, 20);
    }
  }

  /** Minting refuses exactly the inputs with a bad field and those whose token id has so much control
      whitespace that its escapes make the token too long. */
  lemma MintingSucceedsExactlyIf(provider: string, user: Option<string>, wallet: Option<string>, tokenId: string,
                                 chainId: int, asset: string, now: int, nonce: string, key: Key, mac: Mac)
    requires Is32Bytes(mac) && IsHex(nonce, 8)
    requires (user.Some? ==> IsHex(user.value, 20)) && (wallet.Some? ==> IsHex(wallet.value, 20))
    ensures CreateIntent(provider, user, wallet, tokenId, chainId, asset, now, nonce, key, mac).Ok? <==>
              && GoodFields(provider, user, wallet, tokenId, chainId, asset, now)
              && VaryingLength(tokenId, chainId, asset, now) <= 110
  {
    var p := NewPayload(provider, user, wallet, tokenId, chainId, asset, now, nonce);
    NewPayloadIsValid(provider, user, wallet, tokenId, chainId, asset, now, nonce);
    if p.Some? {
      TokenLength(p.value, key, mac);
    }
  }

  /** What is minted says what was asked for: each field of the payload is the argument of its name,
      and the JSON in the token names them by the source's keys. */
  lemma MintedFields(provider: string, user: string, wallet: string, tokenId: string, chainId: int, asset: string,
                     now: int, nonce: string, key: Key, mac: Mac, token: string, p: Payload)
    requires IsHex(nonce, 8) && IsHex(user, 20) && IsHex(wallet, 20)
    requires CreateIntent(provider, Some(user), Some(wallet), tokenId, chainId, asset, now, nonce, key, mac)
             == Ok((token, p))
    ensures p.p == Text(provider) && p.u == Text(user) && p.w == Text(wallet) && p.n == Text(nonce)
    ensures chainId >= 0 && now >= 0
    ensures p.v == Number(1) && p.c == Number(chainId) && p.iat == Number(now) && p.exp == Number(now + 86400)
    ensures p.t.Text? && |p.t.text| == 64 && ReadsAsHex(p.t.text)
            && (LowerCaseOf(tokenId, p.t.text) || LowerCaseOf(tokenId, "0x" + p.t.text))
    ensures p.a.Text? && IsAsset(p.a.text) && SpellsCode(asset, p.a.text)
    ensures var members := [("a", p.a), ("c", p.c), ("exp", p.exp), ("iat", p.iat), ("n", p.n), ("p", p.p), ("t", p.t),
                            ("u", p.u), ("v", p.v), ("w", p.w)];
            && AllAsciiMembers(members) && AllAscii(Print(members))
            && var payload64 := Base64Url.Encode(Ascii(Print(members)));
            && token == "privana_" + (payload64 + "."
                                      + Base64Url.Encode(mac(key, "privana:onramp:intent:v1:" + payload64)))
  {
    HexPayloadIsExact(tokenId, 32, p.t.text);
    AssetCodeIsExact(asset, p.a.text);
    NewPayloadIsValid(provider, Some(user), Some(wallet), tokenId, chainId, asset, now, nonce);
    MembersAreAscii(p);
    PrintIsAscii(Members(p));
  }

  lemma {:induction false} TabsReadAsHex(s: string)
    requires forall i :: 0 <= i < |s| ==> s[i] == 11 as char
    ensures ReadsAsHex(s) && Escapes(s) == 5 * |s|
  {
    if s != "" {
      TabsReadAsHex(s[1..]);
    }
  }

  lemma EscapesAreTooLong(user: string, wallet: string, tokenId: string, nonce: string, key: Key, mac: Mac)
    requires Is32Bytes(mac) && IsHex(nonce, 8) && IsHex(user, 20) && IsHex(wallet, 20)
    requires HexPayload(tokenId, 32) == Some(tokenId) && Escapes(tokenId) > 110
    ensures !CreateIntent("moonpay", Some(user), Some(wallet), tokenId, 1, "usdc", 0, nonce, key, mac).Ok?
  {
    MintingSucceedsExactlyIf("moonpay", Some(user), Some(wallet), tokenId, 1, "usdc", 0, nonce, key, mac);
  }

  /** A token id that passes the hex check and cannot be minted: 64 vertical tabs. */
  lemma TabbedTokenIdIsTooLong(user: string, wallet: string, nonce: string, key: Key, mac: Mac)
    requires Is32Bytes(mac) && IsHex(nonce, 8) && IsHex(user, 20) && IsHex(wallet, 20)
    ensures var tokenId := seq(64, _ => 11 as char);
            && GoodFields("moonpay", Some(user), Some(wallet), tokenId, 1, "usdc", 0)
            && !CreateIntent("moonpay", Some(user), Some(wallet), tokenId, 1, "usdc", 0, nonce, key, mac).Ok?
  {
    var tokenId := seq(64, _ => 11 as char);
    TabsReadAsHex(tokenId);
    NormalHex(tokenId, 32);
    NormalAsset("usdc");
    EscapesAreTooLong(user, wallet, tokenId, nonce, key, mac);
  }
}
