/** The vertex-layout description that `create_model_context` in
    src/gl_utils.rs turns into one attribute pointer per token: "3f;3f;2f"
    describes three attributes of three, three and two floats. The GL buffer
    calls around it are left out; the attribute pointers it would set up are
    the result. */
module VertexLayout {
  import opened Outcome
  import opened Vectors

  // ---------------------------------------------------------------------------
  // `str::split(';')`
  // ---------------------------------------------------------------------------

  /** The pieces between the separators, in order. Like Rust's `split`, the
      empty string gives one empty piece and a trailing separator gives an
      empty last piece. */
  function Split(s: string, sep: char): (r: seq<string>)
    ensures |r| >= 1
    decreases |s|
  {
    if |s| == 0 then [""]
    else
      var rest := Split(s[1..], sep);
      if s[0] == sep then [""] + rest
      else [[s[0]] + rest[0]] + rest[1..]
  }

  /** The pieces put back together with the separator between them. */
  function Join(pieces: seq<string>, sep: char): string
    requires |pieces| >= 1
    decreases |pieces|
  {
    if |pieces| == 1 then pieces[0] else pieces[0] + [sep] + Join(pieces[1..], sep)
  }

  /** Splitting loses nothing: joining the pieces gives back the text, and no
      piece contains the separator. */
  lemma SplitJoin(s: string, sep: char)
    ensures Join(Split(s, sep), sep) == s
    ensures forall k, j :: 0 <= k < |Split(s, sep)| && 0 <= j < |Split(s, sep)[k]| ==> Split(s, sep)[k][j] != sep
  {
    JoinSplit(s, sep);
    PiecesWithoutSeparator(s, sep);
  }

  lemma {:induction false} JoinSplit(s: string, sep: char)
    ensures Join(Split(s, sep), sep) == s
    decreases |s|
  {
    if |s| > 0 {
      var rest := Split(s[1..], sep);
      JoinSplit(s[1..], sep);
      if s[0] == sep {
        assert Split(s, sep)[1..] == rest;
      } else {
        var r := Split(s, sep);
        if |rest| == 1 {
          assert r == [[s[0]] + rest[0]];
        } else {
          assert r[1..] == rest[1..];
          assert Join(rest, sep) == rest[0] + [sep] + Join(rest[1..], sep);
        }
      }
    }
  }

  lemma {:induction false} PiecesWithoutSeparator(s: string, sep: char)
    ensures forall k, j :: 0 <= k < |Split(s, sep)| && 0 <= j < |Split(s, sep)[k]| ==> Split(s, sep)[k][j] != sep
    decreases |s|
  {
    if |s| > 0 {
      var rest := Split(s[1..], sep);
      PiecesWithoutSeparator(s[1..], sep);
      var r := Split(s, sep);
      forall k, j | 0 <= k < |r| && 0 <= j < |r[k]|
        ensures r[k][j] != sep
      {
        if s[0] == sep {
          if k > 0 {
            assert r[k] == rest[k - 1];
          }
        } else if k == 0 && j > 0 {
          assert r[0][j] == rest[0][j - 1];
        } else if k > 0 {
          assert r[k] == rest[k];
        }
      }
    }
  }

  /** Text without the separator is one piece. */
  lemma {:induction false} SplitWithoutSeparator(t: string, sep: char)
    requires forall j :: 0 <= j < |t| ==> t[j] != sep
    ensures Split(t, sep) == [t]
    decreases |t|
  {
    if |t| > 0 {
      SplitWithoutSeparator(t[1..], sep);
      assert [t[0]] + t[1..] == t;
    }
  }

  /** A first piece without the separator, then the separator, then the rest:
      the first piece comes first and the rest is split on. */
  lemma {:induction false} SplitAfterFirst(head: string, tail: string, sep: char)
    requires forall j :: 0 <= j < |head| ==> head[j] != sep
    ensures Split(head + [sep] + tail, sep) == [head] + Split(tail, sep)
    decreases |head|
  {
    var s := head + [sep] + tail;
    if |head| == 0 {
      assert s[1..] == tail;
    } else {
      assert s[1..] == head[1..] + [sep] + tail;
      SplitAfterFirst(head[1..], tail, sep);
      assert [head[0]] + head[1..] == head;
    }
  }

  // ---------------------------------------------------------------------------
  // `str::parse::<GLint>()`
  // ---------------------------------------------------------------------------

  predicate IsDigit(c: char) {
    '0' <= c <= '9'
  }

  predicate AllDigits(ds: string) {
    forall k :: 0 <= k < |ds| ==> IsDigit(ds[k])
  }

  /** The value of a run of decimal digits, most significant first. */
  function DigitsValue(ds: string): nat
    requires AllDigits(ds)
    decreases |ds|
  {
    if |ds| == 0 then 0
    else DigitsValue(ds[..|ds| - 1]) * 10 + (ds[|ds| - 1] as int - '0' as int)
  }

  /** Rust's `i32::from_str`: an optional `+` or `-`, then at least one
      decimal digit and nothing else, with the value inside the range of
      `i32`. Anything else is an error, which is `None` here. */
  function ParseI32(t: string): (r: Option<int>)
    ensures r.Some? ==> IsI32(r.value)
    ensures |t| == 0 ==> r.None?
  {
    var signed := |t| > 0 && (t[0] == '-' || t[0] == '+');
    var digits := if signed then t[1..] else t;
    if |digits| == 0 || !AllDigits(digits) then None
    else
      var v: int := if signed && t[0] == '-' then -(DigitsValue(digits) as int) else DigitsValue(digits);
      if IsI32(v) then Some(v) else None
  }

  /** The decimal digits of n, without sign or leading zeros. */
  function Decimal(n: nat): string
    decreases n
  {
    if n < 10 then [('0' as int + n) as char]
    else Decimal(n / 10) + [('0' as int + n % 10) as char]
  }

  lemma {:induction false} DecimalDigits(n: nat)
    ensures |Decimal(n)| >= 1 && AllDigits(Decimal(n)) && Decimal(n)[0] != '-' && Decimal(n)[0] != '+'
    ensures DigitsValue(Decimal(n)) == n
    decreases n
  {
    if n >= 10 {
      DecimalDigits(n / 10);
      var d := Decimal(n);
      assert d[..|d| - 1] == Decimal(n / 10);
    }
  }

  /** Parsing is the inverse of printing on the range of `i32`: the decimal
      digits of n parse to n, and with a leading `-` to -n. */
  lemma ParseDecimal(n: nat)
    ensures n < 0x8000_0000 ==> ParseI32(Decimal(n)) == Some(n)
    ensures n <= 0x8000_0000 ==> ParseI32("-" + Decimal(n)) == Some(-(n as int))
    ensures n >= 0x8000_0000 ==> ParseI32(Decimal(n)) == None
  {
    DecimalDigits(n);
    ParseUnsigned(Decimal(n), n);
    ParseNegative(Decimal(n), n);
  }

  /** Digits without a sign parse to their value when it fits. */
  lemma ParseUnsigned(ds: string, n: nat)
    requires |ds| >= 1 && AllDigits(ds) && ds[0] != '-' && ds[0] != '+' && DigitsValue(ds) == n
    ensures ParseI32(ds) == if n < 0x8000_0000 then Some(n) else None
  {
  }

  /** Digits after a `-` parse to the negated value when it fits. */
  lemma ParseNegative(ds: string, n: nat)
    requires |ds| >= 1 && AllDigits(ds) && DigitsValue(ds) == n
    ensures n <= 0x8000_0000 ==> ParseI32("-" + ds) == Some(-(n as int))
  {
    assert ("-" + ds)[1..] == ds;
  }

  // ---------------------------------------------------------------------------
  // One token
  // ---------------------------------------------------------------------------

  /** The three type letters `create_model_context` accepts. */
  datatype TypeId = Float | Int | Bool

  /** `size_of::<GLfloat>()`, `size_of::<GLint>()` and `size_of::<GLboolean>()`. */
  function Width(t: TypeId): nat {
    match t
    case Float => 4
    case Int => 4
    case Bool => 1
  }

  const SubtractOverflow := "attempt to subtract with overflow"
  const UnwrapErr := "called `Result::unwrap()` on an `Err` value"
  const InvalidTypeId := "Invalid type id"
  const MultiplyOverflow := "attempt to multiply with overflow"
  const AddOverflow := "attempt to add with overflow"
  const NotCharBoundary := "byte index is not a char boundary"

  /** Whether a character is a single byte in UTF-8. `desc.len() - 1` counts
      bytes, so slicing there is at a character boundary exactly when the
      last character is one byte long. */
  predicate OneByte(c: char) {
    c as int < 0x80
  }

  /** The type letter of a token, or `None` when it is not one of f, i, b. */
  function TypeOf(c: char): (r: Option<TypeId>)
    ensures r.Some? <==> c in "fib"
  {
    if c == 'f' then Some(Float) else if c == 'i' then Some(Int) else if c == 'b' then Some(Bool) else None
  }

  /** Lines 89-96 for one token: the last byte is the type, the text before
      it the count. An empty token fails on `desc.len() - 1`, a token whose
      last character is longer than one byte on the slice at line 89, a count
      that is no `i32` on the `unwrap`, and then an unknown letter on the
      `panic!`. */
  function ParseToken(t: string): (r: Result<(TypeId, int)>)
    ensures r.Ok? <==> |t| >= 1 && ParseI32(t[..|t| - 1]).Some? && TypeOf(t[|t| - 1]).Some?
    ensures r.Ok? ==> TypeOf(t[|t| - 1]) == Some(r.value.0) && ParseI32(t[..|t| - 1]) == Some(r.value.1)
    ensures !r.Err?
  {
    if |t| == 0 then Panic(SubtractOverflow)
    else if !OneByte(t[|t| - 1]) then Panic(NotCharBoundary)
    else
      var size := ParseI32(t[..|t| - 1]);
      if size.None? then Panic(UnwrapErr)
      else match TypeOf(t[|t| - 1])
        case None => Panic(InvalidTypeId)
        case Some(ty) => Ok((ty, size.value))
  }

  // ---------------------------------------------------------------------------
  // The layout
  // ---------------------------------------------------------------------------

  /** What a token parses to: its type and count, or the panic. */
  type Token = Result<(TypeId, int)>

  /** The tokens of a description, parsed one by one. */
  function Parsed(tokens: seq<string>): (r: seq<Token>)
    ensures |r| == |tokens|
    decreases |tokens|
  {
    if |tokens| == 0 then [] else Parsed(tokens[..|tokens| - 1]) + [ParseToken(tokens[|tokens| - 1])]
  }

  /** Parsed token k is what token k parses to. */
  lemma {:induction false} ParsedAt(tokens: seq<string>, k: nat)
    requires k < |tokens|
    ensures Parsed(tokens)[k] == ParseToken(tokens[k])
    decreases |tokens|
  {
    var init := tokens[..|tokens| - 1];
    if k < |tokens| - 1 {
      ParsedAt(init, k);
      assert init[k] == tokens[k];
    }
  }

  /** Every parsed token is what its token parses to. */
  lemma ParsedAll(tokens: seq<string>)
    ensures forall k :: 0 <= k < |tokens| ==> Parsed(tokens)[k] == ParseToken(tokens[k])
  {
    forall k | 0 <= k < |tokens|
      ensures Parsed(tokens)[k] == ParseToken(tokens[k])
    {
      ParsedAt(tokens, k);
    }
  }

  /** One `(type_id, size, offset)` that the first loop pushes onto `layout`. */
  datatype Entry = Entry(kind: TypeId, size: int, offset: int)

  /** One `gl::VertexAttribPointer` call of the second loop (normalization is
      always `gl::FALSE`). */
  datatype AttribPointer = AttribPointer(index: nat, size: int, kind: TypeId, stride: int, offset: int)

  /** One pass of the first loop on a parsed token: push its entry at the
      running offset and add its bytes. The offset is an `i32`; an
      overflowing product or sum panics, as in a debug build. */
  function Push(acc: (seq<Entry>, int), tok: Token): (r: Result<(seq<Entry>, int)>)
    ensures tok.Panic? ==> r == Panic(tok.reason)
    ensures r.Ok? ==> tok.Ok? && r.value == (acc.0 + [Entry(tok.value.0, tok.value.1, acc.1)], acc.1 + Bytes(tok))
  {
    match tok
    case Ok(t) =>
      var bytes := t.1 * Width(t.0);
      if !IsI32(bytes) then Panic(MultiplyOverflow)
      else if !IsI32(acc.1 + bytes) then Panic(AddOverflow)
      else Ok((acc.0 + [Entry(t.0, t.1, acc.1)], acc.1 + bytes))
    case Err(m) => Err(m)
    case Panic(m) => Panic(m)
  }

  /** The bytes a parsed token contributes. */
  function Bytes(tok: Token): int {
    if tok.Ok? then tok.value.1 * Width(tok.value.0) else 0
  }

  /** The outcomes of one pass, case by case in the order of lines 89-103. */
  lemma PushCases(acc: (seq<Entry>, int), t: string)
    ensures |t| == 0 ==> Push(acc, ParseToken(t)) == Panic(SubtractOverflow)
    ensures |t| > 0 && !OneByte(t[|t| - 1]) ==> Push(acc, ParseToken(t)) == Panic(NotCharBoundary)
    ensures |t| > 0 && OneByte(t[|t| - 1]) && ParseI32(t[..|t| - 1]).None? ==>
      Push(acc, ParseToken(t)) == Panic(UnwrapErr)
    ensures |t| > 0 && OneByte(t[|t| - 1]) && ParseI32(t[..|t| - 1]).Some? && TypeOf(t[|t| - 1]).None? ==>
      Push(acc, ParseToken(t)) == Panic(InvalidTypeId)
    ensures ParseToken(t).Ok? ==>
      var ty, n := ParseToken(t).value.0, ParseToken(t).value.1;
      Push(acc, ParseToken(t)) ==
        if !IsI32(n * Width(ty)) then Panic(MultiplyOverflow)
        else if !IsI32(acc.1 + n * Width(ty)) then Panic(AddOverflow)
        else Ok((acc.0 + [Entry(ty, n, acc.1)], acc.1 + n * Width(ty)))
  {
  }

  /** The first loop after n tokens: the entries so far and the running
      offset, or the panic of the first token that failed. */
  function Prefix(toks: seq<Token>, n: nat): (r: Result<(seq<Entry>, int)>)
    requires n <= |toks|
    decreases n
  {
    if n == 0 then Ok(([], 0))
    else
      var before := Prefix(toks, n - 1);
      if before.Ok? then Push(before.value, toks[n - 1]) else before
  }

  /** The second loop: attribute i gets index i and the total as its stride. */
  function Pointers(entries: seq<Entry>, stride: int): (r: seq<AttribPointer>)
    ensures |r| == |entries|
  {
    seq(|entries|, i requires 0 <= i < |entries| =>
      AttribPointer(i, entries[i].size, entries[i].kind, stride, entries[i].offset))
  }

  /** The attribute pointers `create_model_context` sets up for a description. */
  function Layout(description: string): Result<seq<AttribPointer>> {
    var tokens := Split(description, ';');
    match Prefix(Parsed(tokens), |tokens|)
    case Ok(acc) => Ok(Pointers(acc.0, acc.1))
    case Err(m) => Err(m)
    case Panic(m) => Panic(m)
  }

  /** The body of the first loop for one token `desc`: lines 89-103. */
  method PushToken(layout: seq<Entry>, offset: int, desc: string) returns (r: Result<(seq<Entry>, int)>)
    ensures r == Push((layout, offset), ParseToken(desc))
  {
    PushCases((layout, offset), desc);
    if |desc| == 0 {
      return Panic(SubtractOverflow);
    }
    var typeChar := desc[|desc| - 1];
    if !OneByte(typeChar) {
      return Panic(NotCharBoundary);
    }
    var size := ParseI32(desc[..|desc| - 1]);
    if size.None? {
      return Panic(UnwrapErr);
    }
    var typeId: TypeId;
    if typeChar == 'f' {
      typeId := Float;
    } else if typeChar == 'i' {
      typeId := Int;
    } else if typeChar == 'b' {
      typeId := Bool;
    } else {
      return Panic(InvalidTypeId);
    }
    var pushed := layout + [Entry(typeId, size.value, offset)];
    var bytes := size.value * Width(typeId);
    if !IsI32(bytes) {
      return Panic(MultiplyOverflow);
    }
    if !IsI32(offset + bytes) {
      return Panic(AddOverflow);
    }
    r := Ok((pushed, offset + bytes));
  }

  /** Lines 86-116 of src/gl_utils.rs: the loop over the tokens and the loop
      over the collected entries. */
  method CreateLayout(description: string) returns (r: Result<seq<AttribPointer>>)
    ensures r == Layout(description)
  {
    var tokens := Split(description, ';');
    var parsed := CollectEntries(tokens);
    if !parsed.Ok? {
      return if parsed.Err? then Err(parsed.msg) else Panic(parsed.reason);
    }
    var pointers := SetPointers(parsed.value.0, parsed.value.1);
    r := Ok(pointers);
  }

  /** The first loop, lines 86-104: one entry per token, and the total. */
  method CollectEntries(tokens: seq<string>) returns (r: Result<(seq<Entry>, int)>)
    ensures r == Prefix(Parsed(tokens), |tokens|)
  {
    ghost var toks := Parsed(tokens);
    var offset := 0;
    var layout: seq<Entry> := [];
    var i := 0;
    while i < |tokens|
      invariant 0 <= i <= |tokens|
      invariant Prefix(toks, i) == Ok((layout, offset))
    {
      var pushed := NextEntry(tokens, i, layout, offset);
      if !pushed.Ok? {
        return pushed;
      }
      layout, offset := pushed.value.0, pushed.value.1;
      i := i + 1;
    }
    r := Ok((layout, offset));
  }

  /** The second loop, lines 105-116: one attribute pointer per entry. */
  method SetPointers(layout: seq<Entry>, stride: int) returns (pointers: seq<AttribPointer>)
    ensures pointers == Pointers(layout, stride)
  {
    pointers := [];
    var j := 0;
    while j < |layout|
      invariant 0 <= j <= |layout|
      invariant pointers == Pointers(layout[..j], stride)
    {
      var e := layout[j];
      pointers := pointers + [AttribPointer(j, e.size, e.kind, stride, e.offset)];
      j := j + 1;
    }
    assert layout[..j] == layout;
  }

  /** One pass of the first loop, on token i of the description. */
  method NextEntry(tokens: seq<string>, i: nat, layout: seq<Entry>, offset: int) returns (r: Result<(seq<Entry>, int)>)
    requires i < |tokens| && Prefix(Parsed(tokens), i) == Ok((layout, offset))
    ensures r == Prefix(Parsed(tokens), i + 1)
    ensures !r.Ok? ==> r == Prefix(Parsed(tokens), |tokens|)
  {
    r := PushToken(layout, offset, tokens[i]);
    ParsedAt(tokens, i);
    NextPrefix(Parsed(tokens), i, r);
  }

  /** What one pass gives is the prefix one token longer, and a panic is
      the panic of the whole loop. */
  lemma NextPrefix(toks: seq<Token>, i: nat, pushed: Result<(seq<Entry>, int)>)
    requires i < |toks| && Prefix(toks, i).Ok? && pushed == Push(Prefix(toks, i).value, toks[i])
    ensures pushed == Prefix(toks, i + 1)
    ensures !pushed.Ok? ==> pushed == Prefix(toks, |toks|)
  {
    if !pushed.Ok? {
      PanicPersists(toks, i + 1, |toks|);
    }
  }

  /** Once a token has failed, the later tokens are never looked at. */
  lemma {:induction false} PanicPersists(toks: seq<Token>, i: nat, n: nat)
    requires i <= n <= |toks|
    requires !Prefix(toks, i).Ok?
    ensures Prefix(toks, n) == Prefix(toks, i)
    decreases n - i
  {
    if i < n {
      PanicPersists(toks, i + 1, n);
    }
  }

  // ---------------------------------------------------------------------------
  // What the layout means
  // ---------------------------------------------------------------------------

  /** The bytes of the first n tokens. */
  function SumBytes(toks: seq<Token>, n: nat): int
    requires n <= |toks|
    decreases n
  {
    if n == 0 then 0 else SumBytes(toks, n - 1) + Bytes(toks[n - 1])
  }

  /** Entry k has the type and count of token k and starts at the bytes of
      the tokens before it. */
  predicate EntryMatches(toks: seq<Token>, entries: seq<Entry>, k: nat)
    requires k < |toks| && k < |entries|
  {
    toks[k] == Ok((entries[k].kind, entries[k].size)) && entries[k].offset == SumBytes(toks, k)
  }

  /** After n tokens the entries are the n tokens' types and counts, entry k
      starts at the bytes of tokens 0..k-1, and the running offset is the
      bytes of all n. */
  lemma {:induction false} PrefixMeaning(toks: seq<Token>, n: nat)
    requires n <= |toks|
    ensures Prefix(toks, n).Ok? ==>
      var acc := Prefix(toks, n).value;
      |acc.0| == n && acc.1 == SumBytes(toks, n) &&
      forall k :: 0 <= k < n ==> EntryMatches(toks, acc.0, k)
    decreases n
  {
    if n > 0 && Prefix(toks, n).Ok? {
      PrefixMeaning(toks, n - 1);
      var before, acc := Prefix(toks, n - 1).value, Prefix(toks, n).value;
      assert acc.0[..n - 1] == before.0;
      EntriesExtend(toks, before.0, acc.0, n);
    }
  }

  /** Entries that match their tokens stay matched when one more matching
      entry is appended. */
  lemma EntriesExtend(toks: seq<Token>, before: seq<Entry>, after: seq<Entry>, n: nat)
    requires 0 < n <= |toks| && |before| == n - 1 && |after| == n && after[..n - 1] == before
    requires forall k :: 0 <= k < n - 1 ==> EntryMatches(toks, before, k)
    requires EntryMatches(toks, after, n - 1)
    ensures forall k :: 0 <= k < n ==> EntryMatches(toks, after, k)
  {
    forall k | 0 <= k < n - 1
      ensures EntryMatches(toks, after, k)
    {
      assert after[k] == before[k];
      assert EntryMatches(toks, before, k);
    }
  }

  /** A token that does not parse makes the whole loop panic. */
  lemma {:induction false} BadTokenPanics(toks: seq<Token>, n: nat, k: nat)
    requires k < n <= |toks|
    requires toks[k].Panic? && forall i :: 0 <= i < k ==> !toks[i].Err?
    ensures Prefix(toks, n).Panic?
    decreases n
  {
    if k < n - 1 {
      BadTokenPanics(toks, n - 1, k);
    } else {
      NeverErr(toks, n - 1);
    }
  }

  /** Tokens that parse or panic never make the loop fail with an error. */
  lemma {:induction false} NeverErr(toks: seq<Token>, n: nat)
    requires n <= |toks| && forall i :: 0 <= i < n ==> !toks[i].Err?
    ensures !Prefix(toks, n).Err?
    decreases n
  {
    if n > 0 {
      NeverErr(toks, n - 1);
    }
  }

  /** Token k parses, and its byte count and the byte total up to and
      including it fit in an `i32`. */
  predicate TokenFits(toks: seq<Token>, k: nat)
    requires k < |toks|
  {
    toks[k].Ok? && IsI32(Bytes(toks[k])) && IsI32(SumBytes(toks, k + 1))
  }

  /** When every token parses and every byte count and running total fits
      in an `i32`, no token panics. */
  lemma {:induction false} GoodTokensSucceed(toks: seq<Token>, n: nat)
    requires n <= |toks|
    requires forall k :: 0 <= k < n ==> TokenFits(toks, k)
    ensures Prefix(toks, n).Ok?
    decreases n
  {
    if n > 0 {
      GoodTokensSucceed(toks, n - 1);
      PrefixMeaning(toks, n - 1);
      assert TokenFits(toks, n - 1);
    }
  }

  /** A description that sets up attributes has one per token: attribute k
      has index k, the type and count of token k, starts at the bytes of the
      tokens before it (so the first starts at 0), and every stride is the
      bytes of all tokens. */
  lemma LayoutMeaning(description: string)
    ensures Layout(description).Ok? ==>
      var tokens, ps := Split(description, ';'), Layout(description).value;
      var toks := Parsed(tokens);
      |ps| == |tokens| && ps[0].offset == 0 &&
      forall k :: 0 <= k < |ps| ==>
        ps[k].index == k && ParseToken(tokens[k]) == Ok((ps[k].kind, ps[k].size)) &&
        ps[k].offset == SumBytes(toks, k) && ps[k].stride == SumBytes(toks, |tokens|)
  {
    var tokens := Split(description, ';');
    var toks := Parsed(tokens);
    PrefixMeaning(toks, |tokens|);
    ParsedAll(tokens);
    if Layout(description).Ok? {
      var acc := Prefix(toks, |tokens|).value;
      forall k | 0 <= k < |tokens|
        ensures ParseToken(tokens[k]) == Ok((acc.0[k].kind, acc.0[k].size)) && acc.0[k].offset == SumBytes(toks, k)
      {
        assert EntryMatches(toks, acc.0, k);
      }
    }
  }

  /** A token that does not parse makes the description panic, whatever the
      other tokens are; a trailing `;` is such a token, and so are the `u`
      and `_` types. */
  lemma BadDescriptionsPanic(description: string, k: nat)
    requires k < |Split(description, ';')| && !ParseToken(Split(description, ';')[k]).Ok?
    ensures Layout(description).Panic?
  {
    var tokens := Split(description, ';');
    var toks := Parsed(tokens);
    ParsedAll(tokens);
    BadTokenPanics(toks, |tokens|, k);
  }

  /** A one-digit count followed by `f` is that many floats. */
  lemma SmallCount(d: char)
    requires IsDigit(d)
    ensures ParseToken([d, 'f']) == Ok((Float, d as int - '0' as int))
  {
    var t := [d, 'f'];
    assert t[..1] == [d];
    assert [d][..0] == [];
    assert AllDigits([d]);
    assert DigitsValue([d]) == d as int - '0' as int;
  }

  /** "3f;3f;2f" is three tokens. */
  lemma SplitThree()
    ensures Split("3f;3f;2f", ';') == ["3f", "3f", "2f"]
  {
    assert "3f;3f;2f" == "3f" + [';'] + "3f;2f";
    SplitAfterFirst("3f", "3f;2f", ';');
    assert "3f;2f" == "3f" + [';'] + "2f";
    SplitAfterFirst("3f", "2f", ';');
    SplitWithoutSeparator("2f", ';');
  }

  /** The tokens "3f", "3f", "2f" start at 0, 12 and 24 and total 32 bytes. */
  lemma PrefixThree(tokens: seq<string>)
    requires tokens == ["3f", "3f", "2f"]
    ensures Prefix(Parsed(tokens), 3) == Ok(([Entry(Float, 3, 0), Entry(Float, 3, 12), Entry(Float, 2, 24)], 32))
  {
    var toks := Parsed(tokens);
    ParsedAll(tokens);
    SmallCount('3');
    SmallCount('2');
    assert toks[0] == toks[1] == Ok((Float, 3));
    assert toks[2] == Ok((Float, 2));
    assert [] + [Entry(Float, 3, 0)] == [Entry(Float, 3, 0)];
    assert Prefix(toks, 1) == Ok(([Entry(Float, 3, 0)], 12));
    assert [Entry(Float, 3, 0)] + [Entry(Float, 3, 12)] == [Entry(Float, 3, 0), Entry(Float, 3, 12)];
    assert Prefix(toks, 2) == Ok(([Entry(Float, 3, 0), Entry(Float, 3, 12)], 24));
    assert [Entry(Float, 3, 0), Entry(Float, 3, 12)] + [Entry(Float, 2, 24)]
        == [Entry(Float, 3, 0), Entry(Float, 3, 12), Entry(Float, 2, 24)];
  }

  /** The attribute pointers of a description whose tokens all pass. */
  lemma LayoutOfPrefix(description: string, entries: seq<Entry>, total: int)
    requires Prefix(Parsed(Split(description, ';')), |Split(description, ';')|) == Ok((entries, total))
    ensures Layout(description) == Ok(Pointers(entries, total))
  {
  }

  /** The pointers of the three entries of "3f;3f;2f". */
  lemma PointersThree()
    ensures Pointers([Entry(Float, 3, 0), Entry(Float, 3, 12), Entry(Float, 2, 24)], 32)
      == [AttribPointer(0, 3, Float, 32, 0), AttribPointer(1, 3, Float, 32, 12), AttribPointer(2, 2, Float, 32, 24)]
  {
    var ps := Pointers([Entry(Float, 3, 0), Entry(Float, 3, 12), Entry(Float, 2, 24)], 32);
    assert ps[0] == AttribPointer(0, 3, Float, 32, 0);
    assert ps[1] == AttribPointer(1, 3, Float, 32, 12);
    assert ps[2] == AttribPointer(2, 2, Float, 32, 24);
  }

  /** "3f;3f;2f" gives offsets 0, 12 and 24 and stride 32. */
  lemma ThreeAttributes()
    ensures Layout("3f;3f;2f") == Ok([AttribPointer(0, 3, Float, 32, 0),
                                     AttribPointer(1, 3, Float, 32, 12),
                                     AttribPointer(2, 2, Float, 32, 24)])
  {
    var entries := [Entry(Float, 3, 0), Entry(Float, 3, 12), Entry(Float, 2, 24)];
    SplitThree();
    PrefixThree(Split("3f;3f;2f", ';'));
    LayoutOfPrefix("3f;3f;2f", entries, 32);
    PointersThree();
  }

  /** A trailing `;` leaves an empty last token and panics; so does an
      unknown type letter such as `u`. */
  lemma RejectedDescriptions()
    ensures Layout("3f;").Panic?
    ensures Layout("3u").Panic?
    ensures Layout("3_").Panic?
  {
    assert "3f;" == "3f" + [';'] + "";
    SplitAfterFirst("3f", "", ';');
    BadDescriptionsPanic("3f;", 1);
    SplitWithoutSeparator("3u", ';');
    BadDescriptionsPanic("3u", 0);
    SplitWithoutSeparator("3_", ';');
    BadDescriptionsPanic("3_", 0);
  }

  /** A token ending in `é`, two bytes in UTF-8, panics on the byte slice of
      line 89 before its count or its letter is looked at. */
  lemma MultiByteLastCharacter()
    ensures ParseToken("3\U{E9}") == Panic(NotCharBoundary)
    ensures ParseToken("x\U{E9}") == Panic(NotCharBoundary)
    ensures ParseToken("3f") == Ok((Float, 3))
  {
    SmallCount('3');
  }
}
