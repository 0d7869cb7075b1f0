/** The reversible offer keys of `catalog/curation/service.py`: URL-safe base64 without padding
    (RFC 4648, sections 3.5 and 5) behind a supplier prefix. */
module OfferKeys {
  import opened Common

  type Byte = b: int | 0 <= b < 256

  type Bytes = seq<Byte>

  datatype Supplier = KhoMmo | VietShare

  /** One supplier product reference; the product id is its UTF-8 encoding. */
  datatype OfferRef = OfferRef(supplier: Supplier, productId: Bytes)

  /** The product ids that are UTF-8 and pass the reference's own validation; never the empty one. */
  datatype KeyRules = KeyRules(productIds: iset<Bytes>)

  function SupplierName(s: Supplier): string {
    match s
    case KhoMmo => "khommo"
    case VietShare => "vietshare"
  }

  // ---------------------------------------------------------------------------------------------
  // Base64

  type Sextet = x: int | 0 <= x < 64

  function UrlChar(x: Sextet): char {
    if x < 26 then 'A' + x as char
    else if x < 52 then 'a' + (x - 26) as char
    else if x < 62 then '0' + (x - 52) as char
    else if x == 62 then '-'
    else '_'
  }

  /** The decoder's alphabet: `altchars` adds '-' and '_' to the standard one without removing '+' and
      '/'. */
  function CharValue(c: char): Option<Sextet> {
    if 'A' <= c <= 'Z' then Some(c as int - 'A' as int)
    else if 'a' <= c <= 'z' then Some(c as int - 'a' as int + 26)
    else if '0' <= c <= '9' then Some(c as int - '0' as int + 52)
    else if c == '-' || c == '+' then Some(62)
    else if c == '_' || c == '/' then Some(63)
    else None
  }

  // The four sextets of three bytes, and back; a short group pads with a zero byte.
  function High(a: Byte): Sextet { a / 4 }
  function Upper(a: Byte, b: Byte): Sextet { a % 4 * 16 + b / 16 }
  function Lower(b: Byte, c: Byte): Sextet { b % 16 * 4 + c / 64 }
  function Low(c: Byte): Sextet { c % 64 }

  function FirstByte(p: Sextet, q: Sextet): Byte { p * 4 + q / 16 }
  function SecondByte(q: Sextet, r: Sextet): Byte { q % 16 * 16 + r / 4 }
  function ThirdByte(r: Sextet, s: Sextet): Byte { r % 4 * 64 + s }

  /** The sextets of `urlsafe_b64encode`, without padding. */
  function Sextets(bytes: Bytes): seq<Sextet> {
    if bytes == [] then []
    else if |bytes| == 1 then [High(bytes[0]), Upper(bytes[0], 0)]
    else if |bytes| == 2 then [High(bytes[0]), Upper(bytes[0], bytes[1]), Lower(bytes[1], 0)]
    else
      [High(bytes[0]), Upper(bytes[0], bytes[1]), Lower(bytes[1], bytes[2]), Low(bytes[2])] + Sextets(bytes[3..])
  }

  function Spell(values: seq<Sextet>): (text: string)
    ensures |text| == |values|
    ensures forall i :: 0 <= i < |values| ==> text[i] == UrlChar(values[i])
  {
    if values == [] then "" else [UrlChar(values[0])] + Spell(values[1..])
  }

  /** `urlsafe_b64encode(bytes).rstrip('=')`. */
  function Encode64(bytes: Bytes): string { Spell(Sextets(bytes)) }

  predicate InAlphabet(text: string) {
    forall i :: 0 <= i < |text| ==> CharValue(text[i]).Some?
  }

  function Values(text: string): (r: seq<Sextet>)
    requires InAlphabet(text)
    ensures |r| == |text|
    ensures forall i :: 0 <= i < |text| ==> Some(r[i]) == CharValue(text[i])
  {
    if text == "" then [] else [CharValue(text[0]).value] + Values(text[1..])
  }

  /** The characters after the first group of four. */
  function AfterGroup(values: seq<Sextet>): (rest: seq<Sextet>)
    requires |values| % 4 != 1 && |values| >= 4
    ensures |rest| == |values| - 4 && |rest| % 4 != 1
  {
    values[4..]
  }

  /** The bytes of the data characters. Leftover bits of a short last group are dropped unseen. */
  function Decode64(values: seq<Sextet>): Bytes
    requires |values| % 4 != 1
  {
    if |values| >= 4 then
      [FirstByte(values[0], values[1]), SecondByte(values[1], values[2]), ThirdByte(values[2], values[3])]
      + Decode64(AfterGroup(values))
    else if |values| == 3 then [FirstByte(values[0], values[1]), SecondByte(values[1], values[2])]
    else if |values| == 2 then [FirstByte(values[0], values[1])]
    else []
  }

  function Padding(n: nat): nat { (4 - n % 4) % 4 }

  /** How many `=` end a text. */
  function TrailingPads(text: string): (n: nat)
    ensures n <= |text|
    ensures n < |text| ==> text[|text| - n - 1] != '='
    ensures forall i :: |text| - n <= i < |text| ==> text[i] == '='
  {
    if text == "" || text[|text| - 1] != '=' then 0 else TrailingPads(text[..|text| - 1]) + 1
  }

  /** `b64decode(text, altchars, validate=True)`: data characters, then exactly the padding they need. */
  function StrictDecode(text: string): Option<Bytes> {
    var pads := TrailingPads(text);
    var data := text[..|text| - pads];
    if InAlphabet(data) && |data| % 4 != 1 && pads == Padding(|data|) then Some(Decode64(Values(data))) else None
  }

  function Pads(n: nat): string {
    if n == 0 then "" else "=" + Pads(n - 1)
  }

  // ---------------------------------------------------------------------------------------------
  // Keys

  function EncodeOfferKey(ref: OfferRef): string {
    SupplierName(ref.supplier) + "." + Encode64(ref.productId)
  }

  /** `value.split(".", maxsplit=1)`. */
  function SplitAtDot(value: string): Option<(string, string)> {
    if value == "" then None
    else if value[0] == '.' then Some(("", value[1..]))
    else
      match SplitAtDot(value[1..])
      case None => None
      case Some((head, tail)) => Some(([value[0]] + head, tail))
  }

  function SupplierOf(name: string): Option<Supplier> {
    if name == SupplierName(KhoMmo) then Some(KhoMmo)
    else if name == SupplierName(VietShare) then Some(VietShare)
    else None
  }

  datatype KeyError = InvalidKey | NotCanonical

  function DecodeOfferKey(rules: KeyRules, value: string): Result<OfferRef, KeyError> {
    match SplitAtDot(value)
    case None => Err(InvalidKey)
    case Some((name, encoded)) =>
      match StrictDecode(encoded + Pads(Padding(|encoded|)))
      case None => Err(InvalidKey)
      case Some(productId) =>
        if productId !in rules.productIds then Err(InvalidKey)
        else
          match SupplierOf(name)
          case None => Err(InvalidKey)
          case Some(supplier) =>
            var ref := OfferRef(supplier, productId);
            if EncodeOfferKey(ref) != value then Err(NotCanonical) else Ok(ref)
  }

  // ---------------------------------------------------------------------------------------------
  // Round trips

  lemma UrlCharRoundTrip(x: Sextet)
    ensures CharValue(UrlChar(x)) == Some(x)
    ensures UrlChar(x) != '=' && UrlChar(x) != '.'
  {
  }

  lemma SpellingReadsBack(values: seq<Sextet>)
    ensures InAlphabet(Spell(values)) && Values(Spell(values)) == values
    ensures forall i :: 0 <= i < |values| ==> Spell(values)[i] != '=' && Spell(values)[i] != '.'
  {
    forall i | 0 <= i < |values|
      ensures CharValue(Spell(values)[i]) == Some(values[i]) && Spell(values)[i] != '=' && Spell(values)[i] != '.'
    {
      UrlCharRoundTrip(values[i]);
    }
    hide UrlChar, CharValue, Spell;
  }

  lemma {:induction false} SextetCount(bytes: Bytes)
    ensures |Sextets(bytes)| == (4 * |bytes| + 2) / 3
    ensures |Sextets(bytes)| % 4 != 1
  {
    if |bytes| > 2 {
      SextetCount(bytes[3..]);
    }
  }

  lemma GroupRoundTrip(a: Byte, b: Byte, c: Byte)
    ensures FirstByte(High(a), Upper(a, b)) == a
    ensures SecondByte(Upper(a, b), Lower(b, c)) == b
    ensures ThirdByte(Lower(b, c), Low(c)) == c
  {
  }

  /** Decoding the encoded characters gives the bytes back. */
  lemma {:induction false} Decode64Inverts(bytes: Bytes)
    ensures |Sextets(bytes)| % 4 != 1 && Decode64(Sextets(bytes)) == bytes
  {
    SextetCount(bytes);
    hide High, Upper, Lower, Low, FirstByte, SecondByte, ThirdByte;
    if |bytes| == 1 {
      GroupRoundTrip(bytes[0], 0, 0);
    } else if |bytes| == 2 {
      GroupRoundTrip(bytes[0], bytes[1], 0);
    } else if |bytes| > 2 {
      GroupRoundTrip(bytes[0], bytes[1], bytes[2]);
      Decode64Inverts(bytes[3..]);
      assert Sextets(bytes)[4..] == Sextets(bytes[3..]);
      assert bytes == [bytes[0], bytes[1], bytes[2]] + bytes[3..];
    }
  }

  lemma {:induction false} PadsAreTrailing(text: string, n: nat)
    requires text == "" || text[|text| - 1] != '='
    ensures |Pads(n)| == n && TrailingPads(text + Pads(n)) == n
    ensures (text + Pads(n))[..|text|] == text
  {
    PadsAreEquals(n);
    var padded := text + Pads(n);
    forall i | |text| <= i < |padded| ensures padded[i] == '=' {
      assert padded[i] == Pads(n)[i - |text|];
    }
    assert text != "" ==> padded[|text| - 1] == text[|text| - 1];
    hide Pads;
  }

  lemma {:induction false} PadsAreEquals(n: nat)
    ensures |Pads(n)| == n && forall i :: 0 <= i < n ==> Pads(n)[i] == '='
  {
    if n > 0 {
      PadsAreEquals(n - 1);
    }
  }

  lemma StrictDecodeInverts(bytes: Bytes)
    ensures var encoded := Encode64(bytes); StrictDecode(encoded + Pads(Padding(|encoded|))) == Some(bytes)
  {
    var encoded := Encode64(bytes);
    SpellingReadsBack(Sextets(bytes));
    Decode64Inverts(bytes);
    PadsAreTrailing(encoded, Padding(|encoded|));
  }

  lemma {:induction false} SplitFinds(head: string, tail: string)
    requires forall i :: 0 <= i < |head| ==> head[i] != '.'
    ensures SplitAtDot(head + "." + tail) == Some((head, tail))
  {
    if head == "" {
      assert (head + "." + tail)[1..] == tail;
    } else {
      SplitFinds(head[1..], tail);
      assert (head + "." + tail)[1..] == head[1..] + "." + tail;
      assert [head[0]] + head[1..] == head;
    }
  }

  lemma NamesAreDistinct(s: Supplier)
    ensures SupplierOf(SupplierName(s)) == Some(s)
    ensures forall i :: 0 <= i < |SupplierName(s)| ==> SupplierName(s)[i] != '.'
  {
    assert SupplierName(KhoMmo)[0] != SupplierName(VietShare)[0];
  }

  /** Decoding an encoded reference gives it back. */
  lemma KeyRoundTrip(rules: KeyRules, ref: OfferRef)
    requires ref.productId in rules.productIds
    ensures DecodeOfferKey(rules, EncodeOfferKey(ref)) == Ok(ref)
  {
    hide SupplierName, SupplierOf, Encode64, StrictDecode, Pads, Padding, SplitAtDot;
    NamesAreDistinct(ref.supplier);
    SplitFinds(SupplierName(ref.supplier), Encode64(ref.productId));
    StrictDecodeInverts(ref.productId);
  }

  /** `decode_offer_key` accepts exactly the keys the encoder makes of valid references, and no key
      stands for two references. */
  lemma AcceptsExactlyTheImage(rules: KeyRules, value: string, ref: OfferRef)
    ensures DecodeOfferKey(rules, value) == Ok(ref) <==> ref.productId in rules.productIds && value == EncodeOfferKey(ref)
  {
    if ref.productId in rules.productIds && value == EncodeOfferKey(ref) {
      KeyRoundTrip(rules, ref);
    }
  }

  lemma EncodingIsInjective(left: OfferRef, right: OfferRef)
    requires EncodeOfferKey(left) == EncodeOfferKey(right)
    ensures left == right
  {
    var rules := KeyRules(iset{left.productId, right.productId});
    KeyRoundTrip(rules, left);
    KeyRoundTrip(rules, right);
  }

  const MAX_KEY := 512

  /** The codec itself has no length limit; the contract's limit on keys admits exactly these ids. */
  lemma KeyFitsExactly(ref: OfferRef)
    ensures |EncodeOfferKey(ref)| <= MAX_KEY <==> |ref.productId| <= if ref.supplier == KhoMmo then 378 else 376
  {
    SextetCount(ref.productId);
  }

  // ---------------------------------------------------------------------------------------------
  // Aliases

  /** The last of `n` characters with its pad bits cleared: four of them after one byte, two after two. */
  function ClearPads(x: Sextet, n: nat): Sextet {
    if n % 4 == 2 then x / 16 * 16 else if n % 4 == 3 then x / 4 * 4 else x
  }

  /** The same characters with the pad bits cleared. */
  function Cleared(values: seq<Sextet>): seq<Sextet> {
    if values == [] then [] else values[..|values| - 1] + [ClearPads(values[|values| - 1], |values|)]
  }

  lemma GroupComesBack(p: Sextet, q: Sextet, r: Sextet, s: Sextet)
    ensures High(FirstByte(p, q)) == p
    ensures Upper(FirstByte(p, q), SecondByte(q, r)) == q && Upper(FirstByte(p, q), 0) == q / 16 * 16
    ensures Lower(SecondByte(q, r), ThirdByte(r, s)) == r && Lower(SecondByte(q, r), 0) == r / 4 * 4
    ensures Low(ThirdByte(r, s)) == s
  {
  }

  lemma SextetsOfGroup(x: Byte, y: Byte, z: Byte, rest: Bytes)
    ensures Sextets([x, y, z] + rest) == [High(x), Upper(x, y), Lower(y, z), Low(z)] + Sextets(rest)
  {
    hide High, Upper, Lower, Low;
    assert ([x, y, z] + rest)[3..] == rest;
  }

  lemma GroupReencodes(values: seq<Sextet>)
    requires |values| % 4 != 1 && |values| >= 4
    ensures Sextets(Decode64(values)) == values[..4] + Sextets(Decode64(AfterGroup(values)))
  {
    hide High, Upper, Lower, Low, FirstByte, SecondByte, ThirdByte, Sextets;
    var x, y, z := FirstByte(values[0], values[1]), SecondByte(values[1], values[2]), ThirdByte(values[2], values[3]);
    var rest := Decode64(AfterGroup(values));
    assert Decode64(values) == [x, y, z] + rest;
    hide Decode64;
    GroupComesBack(values[0], values[1], values[2], values[3]);
    SextetsOfGroup(x, y, z, rest);
  }

  lemma TwoReencode(p: Sextet, q: Sextet)
    ensures Sextets(Decode64([p, q])) == [p, ClearPads(q, 2)]
  {
    GroupComesBack(p, q, 0, 0);
    hide High, Upper, Lower, Low, FirstByte, SecondByte, ThirdByte;
  }

  lemma ThreeReencode(p: Sextet, q: Sextet, r: Sextet)
    ensures Sextets(Decode64([p, q, r])) == [p, q, ClearPads(r, 3)]
  {
    GroupComesBack(p, q, r, 0);
    hide High, Upper, Lower, Low, FirstByte, SecondByte, ThirdByte;
  }

  lemma GroupClears(values: seq<Sextet>)
    requires |values| % 4 != 1 && |values| >= 4
    ensures Cleared(values) == values[..4] + Cleared(AfterGroup(values))
  {
    var rest := values[4..];
    assert values == values[..4] + rest;
    if rest != [] {
      assert values[..|values| - 1] == values[..4] + rest[..|rest| - 1];
    }
  }

  lemma NothingReencodes()
    ensures Sextets(Decode64([])) == []
  {
  }

  lemma ShortReencodes(values: seq<Sextet>)
    requires |values| % 4 != 1 && |values| < 4
    ensures Sextets(Decode64(values)) == Cleared(values)
  {
    hide Sextets, Decode64, ClearPads;
    if |values| == 0 {
      NothingReencodes();
    } else if |values| == 2 {
      assert values == [values[0], values[1]];
      TwoReencode(values[0], values[1]);
    } else {
      assert values == [values[0], values[1], values[2]];
      ThreeReencode(values[0], values[1], values[2]);
    }
  }

  /** Encoding what was decoded clears the pad bits and changes nothing else. */
  lemma {:induction false} ReencodingClears(values: seq<Sextet>)
    requires |values| % 4 != 1
    ensures Sextets(Decode64(values)) == Cleared(values)
  {
    hide Sextets, Decode64, Cleared;
    if |values| < 4 {
      ShortReencodes(values);
    } else {
      GroupReencodes(values);
      GroupClears(values);
      ReencodingClears(AfterGroup(values));
    }
  }

  /** Which characters decode to given bytes: those that are its encoding up to the pad bits. */
  lemma DecodesExactlyUpToPadBits(values: seq<Sextet>, id: Bytes)
    requires |values| % 4 != 1
    ensures Decode64(values) == id <==> Cleared(values) == Sextets(id)
  {
    ReencodingClears(values);
    Decode64Inverts(id);
    Decode64Inverts(Decode64(values));
  }

  /** A text in the decoder's alphabet that spells the bytes, up to pad bits and to the standard letters
      '+' and '/'. */
  predicate Alias(text: string, id: Bytes) {
    InAlphabet(text) && |text| % 4 != 1 && Cleared(Values(text)) == Sextets(id)
  }

  /** What the strict decoder makes of a text without padding of its own. */
  lemma StrictDecodeExactlyAliases(text: string, id: Bytes)
    requires text == "" || text[|text| - 1] != '='
    ensures StrictDecode(text + Pads(Padding(|text|))) == Some(id) <==> Alias(text, id)
  {
    PadsAreTrailing(text, Padding(|text|));
    hide Pads, Padding, TrailingPads, Cleared;
    if InAlphabet(text) && |text| % 4 != 1 {
      DecodesExactlyUpToPadBits(Values(text), id);
    }
  }

  /** So a key of an acceptable id is refused as not canonical exactly when it spells the id in another
      way than the encoder. */
  lemma AliasesAreRejectedExactly(rules: KeyRules, supplier: Supplier, id: Bytes, text: string)
    requires id in rules.productIds && (text == "" || text[|text| - 1] != '=')
    ensures var decoded := DecodeOfferKey(rules, SupplierName(supplier) + "." + text);
      && (decoded == Ok(OfferRef(supplier, id)) <==> text == Encode64(id))
      && (Alias(text, id) ==> (decoded == Err(NotCanonical) <==> text != Encode64(id)))
  {
    hide SupplierName, SupplierOf, Encode64, Pads, Padding, SplitAtDot, StrictDecode, Alias;
    NamesAreDistinct(supplier);
    SplitFinds(SupplierName(supplier), text);
    StrictDecodeExactlyAliases(text, id);
    var key, ref := SupplierName(supplier) + "." + text, OfferRef(supplier, id);
    AcceptsExactlyTheImage(rules, key, ref);
    assert key[|SupplierName(supplier)| + 1..] == text;
    assert EncodeOfferKey(ref)[|SupplierName(supplier)| + 1..] == Encode64(id);
  }

  /** The encoding with one character spelled in another way. */
  function Respelled(id: Bytes, at: nat, c: char): string
    requires at < |Encode64(id)|
  {
    Encode64(id)[..at] + [c] + Encode64(id)[at + 1..]
  }

  lemma PadHasNoValue()
    ensures CharValue('=') == None
  {
  }

  lemma RespellingReadsBack(id: Bytes, at: nat, c: char, v: Sextet)
    requires at < |Encode64(id)| && CharValue(c) == Some(v)
    ensures |Encode64(id)| == |Sextets(id)|
    ensures var text := Respelled(id, at, c);
      && InAlphabet(text) && Values(text) == Sextets(id)[at := v] && text[at] == c && text[|text| - 1] != '='
  {
    PadHasNoValue();
    hide UrlChar, Spell, Sextets, CharValue;
    SpellingReadsBack(Sextets(id));
    var text := Respelled(id, at, c);
    forall i | 0 <= i < |text| ensures CharValue(text[i]) == Some(Sextets(id)[at := v][i]) {
      assert i != at ==> text[i] == Encode64(id)[i];
    }
  }

  /** Setting pad bits makes another spelling of the same bytes. */
  lemma PadBitsMakeAlias(id: Bytes, bits: nat)
    requires |id| % 3 != 0 && 0 < bits < if |id| % 3 == 1 then 16 else 4
    ensures var last := |Encode64(id)| - 1;
      && 0 <= last && Sextets(id)[last] + bits < 64
      && var text := Respelled(id, last, UrlChar(Sextets(id)[last] + bits));
      && Alias(text, id) && text != Encode64(id) && text[|text| - 1] != '='
  {
    hide UrlChar, CharValue, Sextets, Cleared, Spell, Respelled, Values, InAlphabet;
    SextetCount(id);
    LastIsCleared(id);
    var values := Sextets(id);
    SpellingReadsBack(values);
    var last := |values| - 1;
    PadBitsClear(values, bits);
    UrlCharRoundTrip(values[last]);
    UrlCharRoundTrip(values[last] + bits);
    RespellingReadsBack(id, last, UrlChar(values[last] + bits), values[last] + bits);
    assert Encode64(id)[last] == UrlChar(values[last]);
  }

  /** Why the canonical check is there: any id whose length is not a multiple of three leaves pad bits in
      the last character; setting them decodes to the same reference and is refused. */
  lemma PadBitsAreRejected(rules: KeyRules, supplier: Supplier, id: Bytes, bits: nat)
    requires id in rules.productIds && |id| % 3 != 0 && 0 < bits < if |id| % 3 == 1 then 16 else 4
    ensures var last := |Encode64(id)| - 1;
      && 0 <= last && Sextets(id)[last] + bits < 64
      && var text := Respelled(id, last, UrlChar(Sextets(id)[last] + bits));
      && StrictDecode(text + Pads(Padding(|text|))) == Some(id)
      && DecodeOfferKey(rules, SupplierName(supplier) + "." + text) == Err(NotCanonical)
  {
    PadBitsMakeAlias(id, bits);
    var last := |Encode64(id)| - 1;
    var text := Respelled(id, last, UrlChar(Sextets(id)[last] + bits));
    hide Encode64, Respelled, Alias, StrictDecode, DecodeOfferKey, SupplierName, UrlChar, Sextets, Pads, Padding;
    StrictDecodeExactlyAliases(text, id);
    AliasesAreRejectedExactly(rules, supplier, id, text);
  }

  /** The encoder leaves the pad bits clear. */
  lemma LastIsCleared(id: Bytes)
    ensures |Sextets(id)| % 4 != 1 && Cleared(Sextets(id)) == Sextets(id)
  {
    hide Sextets, Decode64, Cleared;
    Decode64Inverts(id);
    ReencodingClears(Sextets(id));
  }

  lemma PadBitsClear(values: seq<Sextet>, bits: nat)
    requires values != [] && Cleared(values) == values
    requires (|values| % 4 == 2 && bits < 16) || (|values| % 4 == 3 && bits < 4)
    ensures var last := |values| - 1;
      && values[last] + bits < 64
      && Cleared(values[last := values[last] + bits]) == values
  {
    var last := |values| - 1;
    assert values[last] == ClearPads(values[last], |values|);
    assert ClearPads(values[last] + bits, |values|) == values[last];
    var changed := values[last := values[last] + bits];
    assert changed[..last] == values[..last];
    assert Cleared(changed) == values[..last] + [values[last]];
  }

  /** And so is every character that the URL-safe alphabet replaced, spelled in the standard one. */
  lemma StandardSpellingIsRejected(rules: KeyRules, supplier: Supplier, id: Bytes, at: nat)
    requires id in rules.productIds && at < |Encode64(id)| && Encode64(id)[at] in {'-', '_'}
    ensures var text := Respelled(id, at, if Encode64(id)[at] == '-' then '+' else '/');
      && StrictDecode(text + Pads(Padding(|text|))) == Some(id)
      && DecodeOfferKey(rules, SupplierName(supplier) + "." + text) == Err(NotCanonical)
  {
    hide Respelled, StrictDecode, DecodeOfferKey, SupplierName, Pads, Padding, Sextets, Values, Cleared;
    StandardSpellingIsAlias(id, at);
    var text := Respelled(id, at, if Encode64(id)[at] == '-' then '+' else '/');
    hide Encode64, Alias;
    StrictDecodeExactlyAliases(text, id);
    AliasesAreRejectedExactly(rules, supplier, id, text);
  }

  lemma StandardSpellingIsAlias(id: Bytes, at: nat)
    requires at < |Encode64(id)| && Encode64(id)[at] in {'-', '_'}
    ensures var text := Respelled(id, at, if Encode64(id)[at] == '-' then '+' else '/');
      Alias(text, id) && text != Encode64(id) && text[|text| - 1] != '='
  {
    hide UrlChar, Sextets, Cleared, Spell, Respelled, Values, InAlphabet;
    var c := if Encode64(id)[at] == '-' then '+' else '/';
    var values := Sextets(id);
    SpellingReadsBack(values);
    UrlCharRoundTrip(values[at]);
    assert CharValue(c) == CharValue(Encode64(id)[at]) == Some(values[at]);
    hide CharValue;
    RespellingReadsBack(id, at, c, values[at]);
    assert values[at := values[at]] == values;
    LastIsCleared(id);
  }
}
