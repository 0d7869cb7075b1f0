/** The Telegram callback codec of `bot/callbacks.py`. */
module Callbacks {
  import opened Common

  const MAX_DATA := 64
  const MAX_IDENTIFIER := 29

  datatype Action = SelectSource | Detail | Quote

  datatype Selection = All | KhoMmoOnly | VietShareOnly

  datatype Version = One | Two

  datatype Callback = Callback(
    action: Action,
    product: Option<string>,
    variant: Option<string>,
    source: Option<Selection>,
    version: Version)

  datatype CodecError =
    | EmptyIdentifier
    | IdentifierNotAscii
    | IdentifierTooLong
    | IdentifierNotCanonical
    | NeedsSource
    | UnexpectedVariant
    | UnexpectedProduct
    | AggregateProduct
    | UnexpectedSource
    | EncodingTooLong
    | EmptyData
    | DataNotAscii
    | DataTooLong
    | ControlCharacter
    | UnknownVersion
    | MissingAction
    | UnknownAction
    | FieldCount
    | NotCanonical

  function ActionCode(a: Action): char {
    match a
    case SelectSource => 's'
    case Detail => 'd'
    case Quote => 'q'
  }

  function ActionOf(c: char): Option<Action> {
    if c == 's' then Some(SelectSource) else if c == 'd' then Some(Detail) else if c == 'q' then Some(Quote) else None
  }

  function SourceCode(s: Selection): char {
    match s
    case All => 'a'
    case KhoMmoOnly => 'k'
    case VietShareOnly => 'v'
  }

  function SourceOf(c: char): Option<Selection> {
    if c == 'a' then Some(All) else if c == 'k' then Some(KhoMmoOnly) else if c == 'v' then Some(VietShareOnly) else None
  }

  predicate IsAscii(text: string) { forall i :: 0 <= i < |text| ==> text[i] < '\U{80}' }

  predicate Alphanumeric(c: char) { 'A' <= c <= 'Z' || 'a' <= c <= 'z' || '0' <= c <= '9' }

  /** `[A-Za-z0-9][A-Za-z0-9._-]{0,28}`. */
  predicate MatchesPattern(text: string) {
    && 1 <= |text| <= MAX_IDENTIFIER
    && Alphanumeric(text[0])
    && forall i :: 1 <= i < |text| ==> Alphanumeric(text[i]) || text[i] in {'.', '_', '-'}
  }

  function CheckIdentifier(text: Option<string>): (error: Option<CodecError>)
    ensures error.None? <==> text.Some? && MatchesPattern(text.value)
  {
    if text.None? || text.value == "" then Some(EmptyIdentifier)
    else if !IsAscii(text.value) then Some(IdentifierNotAscii)
    else if |text.value| > MAX_IDENTIFIER then Some(IdentifierTooLong)
    else if !MatchesPattern(text.value) then Some(IdentifierNotCanonical)
    else None
  }

  // ---------------------------------------------------------------------------------------------
  // Fields

  function Join(parts: seq<string>): string {
    if parts == [] then ""
    else if |parts| == 1 then parts[0]
    else parts[0] + ":" + Join(parts[1..])
  }

  function Split(text: string): (parts: seq<string>)
    ensures parts != []
  {
    if text == "" then [""]
    else
      var rest := Split(text[1..]);
      if text[0] == ':' then [""] + rest else [[text[0]] + rest[0]] + rest[1..]
  }

  predicate NoColon(text: string) { ':' !in text }

  lemma {:induction false} JoinOfSplit(text: string)
    ensures Join(Split(text)) == text
    ensures forall i :: 0 <= i < |Split(text)| ==> NoColon(Split(text)[i])
  {
    if text != "" {
      JoinOfSplit(text[1..]);
      var rest := Split(text[1..]);
      assert text == [text[0]] + text[1..];
      if text[0] == ':' {
        assert ([""] + rest)[1..] == rest;
      } else if |rest| > 1 {
        assert ([[text[0]] + rest[0]] + rest[1..])[1..] == rest[1..];
        assert [text[0]] + (rest[0] + ":" + Join(rest[1..])) == [text[0]] + rest[0] + ":" + Join(rest[1..]);
      }
    }
  }

  lemma {:induction false} SplitOfJoin(parts: seq<string>)
    requires parts != [] && forall i :: 0 <= i < |parts| ==> NoColon(parts[i])
    ensures Split(Join(parts)) == parts
  {
    if |parts| == 1 {
      SplitPlain(parts[0]);
      assert parts == [parts[0]];
    } else {
      SplitOfJoin(parts[1..]);
      SplitAfter(parts[0], Join(parts[1..]));
      assert parts == [parts[0]] + parts[1..];
    }
  }

  lemma {:induction false} SplitPlain(text: string)
    requires NoColon(text)
    ensures Split(text) == [text]
  {
    if text != "" {
      assert forall c :: c in text[1..] ==> c in text;
      SplitPlain(text[1..]);
      assert text == [text[0]] + text[1..];
    }
  }

  lemma {:induction false} SplitAfter(head: string, tail: string)
    requires NoColon(head)
    ensures Split(head + ":" + tail) == [head] + Split(tail)
  {
    if head == "" {
      assert (head + ":" + tail)[1..] == tail;
    } else {
      assert forall c :: c in head[1..] ==> c in head;
      SplitAfter(head[1..], tail);
      assert (head + ":" + tail)[1..] == head[1..] + ":" + tail;
      assert [head[0]] + head[1..] == head;
    }
  }

  // ---------------------------------------------------------------------------------------------
  // Encoders

  function Finish(parts: seq<string>): Result<string, CodecError> {
    if |Join(parts)| > MAX_DATA then Err(EncodingTooLong) else Ok(Join(parts))
  }

  /** `encode_callback`: version one. */
  function EncodeOne(action: Action, product: Option<string>, variant: Option<string>): Result<string, CodecError> {
    if action == SelectSource then Err(NeedsSource)
    else if CheckIdentifier(product).Some? then Err(CheckIdentifier(product).value)
    else if action == Detail then
      if variant.Some? then Err(UnexpectedVariant) else Finish(["1", [ActionCode(action)], product.value])
    else if CheckIdentifier(variant).Some? then Err(CheckIdentifier(variant).value)
    else Finish(["1", [ActionCode(action)], product.value, variant.value])
  }

  /** `_encode_source_bound_callback`: version two. */
  function EncodeTwo(action: Action, source: Selection, product: Option<string>, variant: Option<string>)
    : Result<string, CodecError>
  {
    var code := [ActionCode(action), SourceCode(source)];
    if action == SelectSource then
      if product.Some? || variant.Some? then Err(UnexpectedProduct) else Finish(["2", code])
    else if source == All then Err(AggregateProduct)
    else if action == Detail then
      if variant.Some? then Err(UnexpectedVariant)
      else if CheckIdentifier(product).Some? then Err(CheckIdentifier(product).value)
      else Finish(["2", code, product.value])
    else if CheckIdentifier(product).Some? then Err(CheckIdentifier(product).value)
    else if CheckIdentifier(variant).Some? then Err(CheckIdentifier(variant).value)
    else Finish(["2", code, product.value, variant.value])
  }

  /** The encoder a callback's version calls for. */
  function Encode(c: Callback): Result<string, CodecError> {
    if c.version == One then
      if c.source.Some? then Err(UnexpectedSource) else EncodeOne(c.action, c.product, c.variant)
    else if c.source.None? then Err(NeedsSource)
    else EncodeTwo(c.action, c.source.value, c.product, c.variant)
  }

  // ---------------------------------------------------------------------------------------------
  // Decoder

  function Canonical(c: Callback, data: string): Result<Callback, CodecError> {
    match Encode(c)
    case Err(e) => Err(e)
    case Ok(text) => if text != data then Err(NotCanonical) else Ok(c)
  }

  function DecodeTwo(parts: seq<string>, data: string): Result<Callback, CodecError> {
    if |parts| < 2 || |parts[1]| != 2 then Err(UnknownAction)
    else if ActionOf(parts[1][0]).None? || SourceOf(parts[1][1]).None? then Err(UnknownAction)
    else
      var action, source := ActionOf(parts[1][0]).value, SourceOf(parts[1][1]).value;
      if action == SelectSource then
        if |parts| != 2 then Err(FieldCount) else Canonical(Callback(action, None, None, Some(source), Two), data)
      else if source == All then Err(AggregateProduct)
      else if action == Detail then
        if |parts| != 3 then Err(FieldCount)
        else if CheckIdentifier(Some(parts[2])).Some? then Err(CheckIdentifier(Some(parts[2])).value)
        else Canonical(Callback(action, Some(parts[2]), None, Some(source), Two), data)
      else if |parts| != 4 then Err(FieldCount)
      else if CheckIdentifier(Some(parts[2])).Some? then Err(CheckIdentifier(Some(parts[2])).value)
      else if CheckIdentifier(Some(parts[3])).Some? then Err(CheckIdentifier(Some(parts[3])).value)
      else Canonical(Callback(action, Some(parts[2]), Some(parts[3]), Some(source), Two), data)
  }

  function DecodeOne(parts: seq<string>, data: string): Result<Callback, CodecError> {
    if |parts| < 2 then Err(MissingAction)
    else if |parts[1]| != 1 || ActionOf(parts[1][0]).None? then Err(UnknownAction)
    else
      var action := ActionOf(parts[1][0]).value;
      if action == SelectSource then Err(NeedsSource)
      else if |parts| != (if action == Detail then 3 else 4) then Err(FieldCount)
      else if CheckIdentifier(Some(parts[2])).Some? then Err(CheckIdentifier(Some(parts[2])).value)
      else if action == Detail then Canonical(Callback(action, Some(parts[2]), None, None, One), data)
      else if CheckIdentifier(Some(parts[3])).Some? then Err(CheckIdentifier(Some(parts[3])).value)
      else Canonical(Callback(action, Some(parts[2]), Some(parts[3]), None, One), data)
  }

  predicate HasControl(data: string) {
    exists i :: 0 <= i < |data| && (data[i] < ' ' || data[i] == '\U{7F}')
  }

  /** `decode_callback` on a string. */
  function Decode(data: string): Result<Callback, CodecError> {
    if data == "" then Err(EmptyData)
    else if !IsAscii(data) then Err(DataNotAscii)
    else if |data| > MAX_DATA then Err(DataTooLong)
    else if HasControl(data) then Err(ControlCharacter)
    else
      var parts := Split(data);
      if parts[0] == "2" then DecodeTwo(parts, data)
      else if parts[0] != "1" then Err(UnknownVersion)
      else DecodeOne(parts, data)
  }

  // ---------------------------------------------------------------------------------------------
  // Laws

  lemma JoinUnfolds(a: string, b: string, c: string, d: string)
    ensures Join([a, b]) == a + ":" + b
    ensures Join([a, b, c]) == a + ":" + b + ":" + c
    ensures Join([a, b, c, d]) == a + ":" + b + ":" + c + ":" + d
  {
    assert [a, b][1..] == [b] && [a, b, c][1..] == [b, c] && [a, b, c, d][1..] == [b, c, d];
    assert [b, c][1..] == [c] && [b, c, d][1..] == [c, d] && [c, d][1..] == [d];
    assert Join([b, c]) == b + ":" + c && Join([c, d]) == c + ":" + d;
    assert Join([a, b, c]) == a + ":" + Join([b, c]) == a + ":" + b + ":" + c;
    assert Join([b, c, d]) == b + ":" + Join([c, d]) == b + ":" + c + ":" + d;
    assert Join([a, b, c, d]) == a + ":" + Join([b, c, d]) == a + ":" + b + ":" + c + ":" + d;
  }

  /** No encoding exceeds the limit: after identifier validation the length check cannot fail. */
  lemma EncodingsFit(c: Callback)
    ensures Encode(c) != Err(EncodingTooLong)
    ensures Encode(c).Ok? ==> |Encode(c).value| <= MAX_DATA
  {
    var p := if c.product.Some? then c.product.value else "";
    var v := if c.variant.Some? then c.variant.value else "";
    JoinUnfolds("1", [ActionCode(c.action)], p, v);
    if c.source.Some? {
      JoinUnfolds("2", [ActionCode(c.action), SourceCode(c.source.value)], p, v);
    }
  }

  /** And the limit is reached: a source-bound quote of two longest identifiers is exactly 64 bytes. */
  lemma LongestQuoteIsExact(product: string, variant: string, source: Selection)
    requires MatchesPattern(product) && MatchesPattern(variant) && source != All
    ensures EncodeTwo(Quote, source, Some(product), Some(variant)).Ok?
    ensures |EncodeTwo(Quote, source, Some(product), Some(variant)).value| == MAX_DATA
            <==> |product| == MAX_IDENTIFIER && |variant| == MAX_IDENTIFIER
  {
    JoinUnfolds("2", [ActionCode(Quote), SourceCode(source)], product, variant);
  }

  /** A callback that makes sense: version one names no source and never selects one; version two does, and
      names products of one source only; a detail names a product, a quote a product and a variant. */
  predicate WellFormed(c: Callback) {
    var product := c.product.Some? && MatchesPattern(c.product.value);
    var variant := c.variant.Some? && MatchesPattern(c.variant.value);
    && (c.version == One ==> c.source.None? && c.action != SelectSource)
    && (c.version == Two ==> c.source.Some? && (c.action != SelectSource ==> c.source != Some(All)))
    && match c.action
       case SelectSource => c.product.None? && c.variant.None?
       case Detail => product && c.variant.None?
       case Quote => product && variant
  }

  /** The text of a callback, letter by letter. */
  function TextOf(c: Callback): string
    requires WellFormed(c)
  {
    match c.action
    case SelectSource => HeadOf(c)
    case Detail => HeadOf(c) + ":" + c.product.value
    case Quote => HeadOf(c) + ":" + c.product.value + ":" + c.variant.value
  }

  function HeadOf(c: Callback): string {
    match (c.action, c.source)
    case (SelectSource, Some(All)) => "2:sa"
    case (SelectSource, Some(KhoMmoOnly)) => "2:sk"
    case (SelectSource, Some(VietShareOnly)) => "2:sv"
    case (Detail, None) => "1:d"
    case (Detail, Some(KhoMmoOnly)) => "2:dk"
    case (Detail, Some(VietShareOnly)) => "2:dv"
    case (Quote, None) => "1:q"
    case (Quote, Some(KhoMmoOnly)) => "2:qk"
    case (Quote, Some(VietShareOnly)) => "2:qv"
    case _ => ""
  }

  lemma HeadIsCode(c: Callback)
    requires WellFormed(c)
    ensures HeadOf(c) == if c.source.None? then "1" + ":" + [ActionCode(c.action)]
                         else "2" + ":" + [ActionCode(c.action), SourceCode(c.source.value)]
  {
    hide MatchesPattern;
  }

  /** Exactly the callbacks that make sense are encoded, and exactly to their text. */
  lemma EncodesExactly(c: Callback)
    ensures Encode(c).Ok? <==> WellFormed(c)
    ensures WellFormed(c) ==> Encode(c) == Ok(TextOf(c))
  {
    EncodingsFit(c);
    var p := if c.product.Some? then c.product.value else "";
    var v := if c.variant.Some? then c.variant.value else "";
    JoinUnfolds("1", [ActionCode(c.action)], p, v);
    if c.source.Some? {
      JoinUnfolds("2", [ActionCode(c.action), SourceCode(c.source.value)], p, v);
    }
    if WellFormed(c) {
      HeadIsCode(c);
    }
    hide MatchesPattern, IsAscii, Join, HeadOf;
  }

  /** The fields of a callback that can be encoded. */
  function FieldsOf(c: Callback): seq<string>
    requires Encode(c).Ok?
  {
    var version := if c.version == One then "1" else "2";
    var code := if c.version == One then [ActionCode(c.action)] else [ActionCode(c.action), SourceCode(c.source.value)];
    if c.action == SelectSource then [version, code]
    else if c.action == Detail then [version, code, c.product.value]
    else [version, code, c.product.value, c.variant.value]
  }

  predicate Plain(field: string) {
    NoColon(field) && IsAscii(field) && !HasControl(field)
  }

  lemma FieldsArePlain(c: Callback)
    requires Encode(c).Ok?
    ensures Encode(c).value == Join(FieldsOf(c))
    ensures forall i :: 0 <= i < |FieldsOf(c)| ==> Plain(FieldsOf(c)[i])
  {
  }

  lemma {:induction false} JoinIsPlain(fields: seq<string>)
    requires forall i :: 0 <= i < |fields| ==> Plain(fields[i])
    ensures IsAscii(Join(fields)) && !HasControl(Join(fields))
  {
    if |fields| > 1 {
      JoinIsPlain(fields[1..]);
    }
  }

  lemma OneReadsBack(c: Callback)
    requires c.version == One && Encode(c).Ok?
    ensures |FieldsOf(c)| >= 2 && FieldsOf(c)[0] == "1" && DecodeOne(FieldsOf(c), Encode(c).value) == Ok(c)
  {
    hide Join;
  }

  lemma TwoReadsBack(c: Callback)
    requires c.version != One && Encode(c).Ok?
    ensures |FieldsOf(c)| >= 2 && FieldsOf(c)[0] == "2" && DecodeTwo(FieldsOf(c), Encode(c).value) == Ok(c)
  {
    hide Join;
  }

  lemma JoinIsNotEmpty(fields: seq<string>)
    requires |fields| >= 2
    ensures Join(fields) != ""
  {
  }

  /** Decoding inverts every encoder. */
  lemma DecodeInvertsEncode(c: Callback)
    requires Encode(c).Ok?
    ensures Decode(Encode(c).value) == Ok(c)
  {
    if c.version == One {
      OneReadsBack(c);
    } else {
      TwoReadsBack(c);
    }
    FieldsArePlain(c);
    EncodingsFit(c);
    hide Encode, FieldsOf, Join, Split, IsAscii, HasControl, Plain, DecodeOne, DecodeTwo;
    var fields := FieldsOf(c);
    JoinIsNotEmpty(fields);
    PlainFieldsJoin(fields);
  }

  lemma PlainFieldsJoin(fields: seq<string>)
    requires fields != [] && forall i :: 0 <= i < |fields| ==> Plain(fields[i])
    ensures IsAscii(Join(fields)) && !HasControl(Join(fields)) && Split(Join(fields)) == fields
  {
    hide Join, Split, IsAscii, HasControl;
    JoinIsPlain(fields);
    SplitOfJoin(fields);
  }

  /** Every accepted string is the encoding of what it decodes to. */
  lemma EncodeInvertsDecode(data: string, c: Callback)
    ensures Decode(data) == Ok(c) <==> Encode(c) == Ok(data)
  {
    if Encode(c) == Ok(data) {
      DecodeInvertsEncode(c);
    }
    hide Split, IsAscii, HasControl, MatchesPattern;
  }

  /** Versions one and two never produce the same string, and no two callbacks do. */
  lemma EncodingsAreDistinct(c: Callback, c': Callback)
    requires Encode(c).Ok? && Encode(c') == Encode(c)
    ensures c == c'
  {
    DecodeInvertsEncode(c);
    DecodeInvertsEncode(c');
  }

  /** The final canonical comparison of the decoder cannot fail: what passes the field checks is already
      its own encoding. */
  lemma NothingIsNotCanonical(data: string)
    ensures Decode(data) != Err(NotCanonical) && Decode(data) != Err(EncodingTooLong)
  {
    var parts := Split(data);
    JoinOfSplit(data);
    if |parts| == 2 {
      assert parts == [parts[0], parts[1]];
    } else if |parts| == 3 {
      assert parts == [parts[0], parts[1], parts[2]];
    } else if |parts| == 4 {
      assert parts == [parts[0], parts[1], parts[2], parts[3]];
    }
    CodesAreTheirFields(parts);
    hide Join, Split, IsAscii, HasControl, MatchesPattern;
  }

  lemma CodesAreTheirFields(parts: seq<string>)
    requires parts != []
    ensures |parts| > 1 && |parts[1]| == 1 && ActionOf(parts[1][0]).Some? ==> parts[1] == [ActionCode(ActionOf(parts[1][0]).value)]
    ensures |parts| > 1 && |parts[1]| == 2 && ActionOf(parts[1][0]).Some? && SourceOf(parts[1][1]).Some? ==>
      parts[1] == [ActionCode(ActionOf(parts[1][0]).value), SourceCode(SourceOf(parts[1][1]).value)]
  {
  }
}
