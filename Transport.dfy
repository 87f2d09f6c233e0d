/** The command/response transport shared by both driver versions: a command
    goes out as text plus "\r"; the reply is either one acknowledgement byte
    or a line that is stripped, split from the right into exactly N fields and
    converted field by field. */
module Transport {
  import opened PumpTypes
  import opened Numerals

  /** What the pump sends back to one command: nothing before the timeout,
      a single byte, or a line of text. */
  datatype Reply = Silence | Byte(b: char) | Line(text: string)

  /** `ser_port.read(1)`: at most one byte of the reply. */
  function AckByte(r: Reply): Option<char> {
    match r
    case Silence => None
    case Byte(b) => Some(b)
    case Line(t) => if t == [] then None else Some(t[0])
  }

  /** `ser_port.read_until(b"\r\n")`: whatever arrived, terminated or not. */
  function LineText(r: Reply): string {
    match r
    case Silence => ""
    case Byte(b) => [b]
    case Line(t) => t
  }

  /** The k-th reply of a script; every read past its end times out. */
  function NthReply(script: seq<Reply>, k: nat): Reply {
    if k < |script| then script[k] else Silence
  }

  function Rest(script: seq<Reply>): seq<Reply> {
    if script == [] then [] else script[1..]
  }

  /** The serial port: everything written so far, and the replies the pump
      will give to the next reads, in order. */
  class Port {
    var written: seq<string>
    var replies: seq<Reply>

    constructor (script: seq<Reply>)
      ensures written == [] && replies == script
    {
      written := [];
      replies := script;
    }

    method Write(data: string)
      modifies this
      ensures written == old(written) + [data] && replies == old(replies)
    {
      written := written + [data];
    }

    method Read() returns (r: Reply)
      modifies this
      ensures r == NthReply(old(replies), 0)
      ensures replies == Rest(old(replies)) && written == old(written)
    {
      if replies == [] {
        r := Silence;
      } else {
        r := replies[0];
        replies := replies[1..];
      }
    }
  }

  /** The bytes `_send_cmd` puts on the wire for one command. */
  function Frame(cmd: string): string {
    cmd + "\r"
  }

  function Frames(cmds: seq<string>): (ws: seq<string>)
    ensures |ws| == |cmds| && forall i :: 0 <= i < |cmds| ==> ws[i] == Frame(cmds[i])
  {
    seq(|cmds|, i requires 0 <= i < |cmds| => Frame(cmds[i]))
  }

  // ---------------------------------------------------------------------
  // Acknowledgements

  /** The bytes a one-byte reply may legally be. */
  const AckBytes: set<char> := {'*', '#', '-', '+'}

  /** `_run_cmd` after the write: how the byte read back is classified. */
  function ClassifyAck(resp: Option<char>, checkSuccess: bool): (r: Result<char>)
    ensures r == Err(CommandTimeout) <==> resp.None?
    ensures r == Err(InvalidResponse(UnexpectedAck)) <==> resp.Some? && resp.value !in AckBytes
    ensures r == Err(RemoteError) <==> resp.Some? && resp.value in AckBytes && checkSuccess && resp.value != '*'
    ensures r.Ok? <==> resp.Some? && resp.value in AckBytes && (checkSuccess ==> resp.value == '*')
    ensures r.Ok? ==> r.value == resp.value
  {
    match resp
    case None => Err(CommandTimeout)
    case Some(b) =>
      if b !in AckBytes then Err(InvalidResponse(UnexpectedAck))
      else if checkSuccess && b != '*' then Err(RemoteError)
      else Ok(b)
  }

  // ---------------------------------------------------------------------
  // Whitespace, strip and rsplit as Python's str methods do them on ASCII text

  /** `str.isspace` on ASCII: space, \t \n \v \f \r and the separators 0x1C-0x1F. */
  predicate IsSpace(c: char) {
    c == ' ' || 9 <= c as int <= 13 || 28 <= c as int <= 31
  }

  predicate NoSpace(s: string) {
    forall i :: 0 <= i < |s| ==> !IsSpace(s[i])
  }

  function TrimRight(s: string): (r: string)
    ensures |r| <= |s|
  {
    if s == [] || !IsSpace(s[|s| - 1]) then s else TrimRight(s[..|s| - 1])
  }

  /** Right-trimming removes whitespace only, and all of the trailing whitespace. */
  lemma {:induction false} TrimRightSpec(s: string)
    ensures var r := TrimRight(s);
      && r == s[..|r|]
      && (r == [] || !IsSpace(r[|r| - 1]))
      && forall i :: |r| <= i < |s| ==> IsSpace(s[i])
    decreases |s|
  {
    if s != [] && IsSpace(s[|s| - 1]) {
      TrimRightSpec(s[..|s| - 1]);
    }
  }

  function TrimLeft(s: string): (r: string)
    ensures |r| <= |s|
  {
    if s == [] || !IsSpace(s[0]) then s else TrimLeft(s[1..])
  }

  /** Left-trimming removes whitespace only, and all of the leading whitespace. */
  lemma {:induction false} TrimLeftSpec(s: string)
    ensures var r := TrimLeft(s);
      && r == s[|s| - |r|..]
      && (r == [] || !IsSpace(r[0]))
      && forall i :: 0 <= i < |s| - |r| ==> IsSpace(s[i])
    decreases |s|
  {
    if s != [] && IsSpace(s[0]) {
      TrimLeftSpec(s[1..]);
    }
  }

  /** `str.strip()`. */
  function Strip(s: string): string {
    TrimLeft(TrimRight(s))
  }

  /** A stripped line neither starts nor ends with whitespace. */
  lemma StripSpec(s: string)
    ensures var r := Strip(s);
      r == [] || (!IsSpace(r[0]) && !IsSpace(r[|r| - 1]))
  {
    var t := TrimRight(s);
    var r := TrimLeft(t);
    TrimRightSpec(s);
    TrimLeftSpec(t);
    assert r != [] ==> r[|r| - 1] == t[|t| - 1];
  }

  /** Where the last whitespace-free run of `t` begins. */
  function LastTokenStart(t: string): (w: nat)
    ensures w <= |t|
  {
    if t == [] || IsSpace(t[|t| - 1]) then |t| else LastTokenStart(t[..|t| - 1])
  }

  /** The last token runs from LastTokenStart to the end, preceded by whitespace
      or the start of the text, and is non-empty when the text ends in a
      non-space. */
  lemma {:induction false} LastTokenStartSpec(t: string)
    ensures var w := LastTokenStart(t);
      && (forall i :: w <= i < |t| ==> !IsSpace(t[i]))
      && (w == 0 || IsSpace(t[w - 1]))
      && (t != [] && !IsSpace(t[|t| - 1]) ==> w < |t|)
    decreases |t|
  {
    if t != [] && !IsSpace(t[|t| - 1]) {
      LastTokenStartSpec(t[..|t| - 1]);
    }
  }

  /** `s.rsplit(None, k)`: cut off at most k whitespace-free fields from the
      right; what is left, right-trimmed, is the first field. */
  function RSplit(s: string, k: nat): (r: seq<string>)
    ensures |r| <= k + 1
    ensures r == [] <==> TrimRight(s) == []
    decreases k
  {
    var t := TrimRight(s);
    if t == [] then []
    else if k == 0 then [t]
    else
      var w := LastTokenStart(t);
      RSplit(t[..w], k - 1) + [t[w..]]
  }

  /** `s.split()`: every whitespace-free field (reference for RSplit). */
  function Words(s: string): (r: seq<string>)
    ensures r == [] <==> TrimRight(s) == []
    decreases |s|
  {
    var t := TrimRight(s);
    if t == [] then []
    else
      var w := LastTokenStart(t);
      Words(t[..w]) + [t[w..]]
  }

  /** Every word is non-empty and holds no whitespace. */
  lemma {:induction false} WordsSpec(s: string)
    ensures forall i :: 0 <= i < |Words(s)| ==> Words(s)[i] != [] && NoSpace(Words(s)[i])
    decreases |s|
  {
    var t := TrimRight(s);
    if t != [] {
      TrimRightSpec(s);
      LastTokenStartSpec(t);
      var w := LastTokenStart(t);
      WordsSpec(t[..w]);
      var last := t[w..];
      assert NoSpace(last) by {
        forall i | 0 <= i < |last| ensures !IsSpace(last[i]) {
          assert last[i] == t[w + i];
        }
      }
    }
  }

  /** Right-trimming keeps the first character of a line that is not all blank. */
  lemma TrimRightHead(s: string)
    ensures TrimRight(s) == [] || TrimRight(s)[0] == s[0]
  {
    TrimRightSpec(s);
  }

  lemma TrimRightIdempotent(s: string)
    ensures TrimRight(TrimRight(s)) == TrimRight(s)
  {
  }

  lemma WordsOfTrimmed(s: string)
    ensures Words(TrimRight(s)) == Words(s)
  {
    TrimRightIdempotent(s);
  }

  /** How the fields of a split with budget k relate to all the words: the
      same when there are at most k + 1 words, otherwise the last k words
      and a first field that holds the rest. */
  predicate SplitRelation(ws: seq<string>, rs: seq<string>, k: nat) {
    && (|ws| <= k + 1 ==> rs == ws)
    && (|ws| > k + 1 ==>
      |rs| == k + 1 && rs[1..] == ws[|ws| - k..] && Words(rs[0]) == ws[..|ws| - k])
  }

  predicate SplitsAsWords(s: string, k: nat) {
    SplitRelation(Words(s), RSplit(s, k), k)
  }

  lemma {:induction false} RSplitAgainstWords(s: string, k: nat)
    requires s == [] || !IsSpace(s[0])
    ensures SplitsAsWords(s, k)
    decreases k
  {
    var t := TrimRight(s);
    if t == [] {
    } else if k == 0 {
      RSplitNoBudget(s);
    } else {
      var p := t[..LastTokenStart(t)];
      RestStartsWord(s);
      RSplitAgainstWords(p, k - 1);
      RSplitStep(s, k);
    }
  }

  /** What is left after cutting off the last word still starts with a word. */
  lemma RestStartsWord(s: string)
    requires s == [] || !IsSpace(s[0])
    ensures var t := TrimRight(s); var p := t[..LastTokenStart(t)];
      p == [] || !IsSpace(p[0])
  {
    TrimRightHead(s);
  }

  lemma RSplitNoBudget(s: string)
    requires s == [] || !IsSpace(s[0])
    requires TrimRight(s) != []
    ensures |Words(s)| <= 1 ==> RSplit(s, 0) == Words(s)
    ensures RSplit(s, 0) == [TrimRight(s)] && Words(TrimRight(s)) == Words(s)
  {
    var t := TrimRight(s);
    var w := LastTokenStart(t);
    var p := t[..w];
    WordsOfTrimmed(s);
    TrimRightSpec(s);
    TrimRightSpec(p);
    LastTokenStartSpec(t);
    if |Words(s)| <= 1 {
      assert Words(s) == Words(p) + [t[w..]];
      assert Words(p) == [];
      assert w == 0;
      assert t[w..] == t;
    }
  }

  lemma RSplitStep(s: string, k: nat)
    requires k >= 1 && TrimRight(s) != []
    requires var t := TrimRight(s); SplitsAsWords(t[..LastTokenStart(t)], k - 1)
    ensures SplitsAsWords(s, k)
  {
    var t := TrimRight(s);
    var w := LastTokenStart(t);
    var p := t[..w];
    var last := t[w..];
    assert Words(s) == Words(p) + [last];
    assert RSplit(s, k) == RSplit(p, k - 1) + [last];
    AppendLast(Words(p), RSplit(p, k - 1), last, k);
  }

  /** The bookkeeping of RSplitStep on plain sequences: appending the same
      last field to the split and to the words keeps their relation. */
  lemma AppendLast(ws: seq<string>, rs: seq<string>, last: string, k: nat)
    requires k >= 1 && SplitRelation(ws, rs, k - 1)
    ensures SplitRelation(ws + [last], rs + [last], k)
  {
    var n := |ws| + 1;
    if n > k + 1 {
      var r, a := rs + [last], ws + [last];
      assert r[1..] == rs[1..] + [last];
      assert a[n - k..] == ws[n - 1 - (k - 1)..] + [last];
      assert a[..n - k] == ws[..n - 1 - (k - 1)];
    }
  }

  /** The firmware-string case: three expected fields from a line whose first
      part contains spaces. */
  lemma RSplitKeepsHeadTogether()
    ensures RSplit("A B C D", 2) == ["A B", "C", "D"]
  {
    var s := "A B C D";
    assert TrimRight(s) == s;
    assert LastTokenStart(s) == 6 by {
      assert LastTokenStart(s[..6]) == 6;
    }
    assert s[..6] == "A B C ";
    assert TrimRight("A B C ") == "A B C";
    assert LastTokenStart("A B C") == 4 by {
      assert LastTokenStart("A B C"[..4]) == 4;
    }
    assert "A B C"[..4] == "A B ";
    assert TrimRight("A B ") == "A B";
  }

  // ---------------------------------------------------------------------
  // Field converters

  /** The converters a query names for its fields (`int`, `float`, `str`). */
  datatype FieldType = IntField | FloatField | StrField

  datatype Value = IntValue(i: int) | RealValue(r: real) | StrValue(s: string)

  predicate HasType(v: Value, t: FieldType) {
    match t
    case IntField => v.IntValue?
    case FloatField => v.RealValue?
    case StrField => v.StrValue?
  }

  /** `int(s)` for text of the form [+|-]digits. */
  function ParseInt(s: string): (r: Option<int>)
    ensures r.Some? ==> |s| >= 1
  {
    if |s| >= 2 && (s[0] == '-' || s[0] == '+') && AllDigits(s[1..]) then
      Some(if s[0] == '-' then -(DigitsValue(s[1..]) as int) else DigitsValue(s[1..]))
    else if |s| >= 1 && AllDigits(s) then Some(DigitsValue(s))
    else None
  }

  lemma ParseIntOfString(n: int)
    ensures ParseInt(IntToString(n)) == Some(n)
  {
    if n < 0 {
      assert IntToString(n)[1..] == NatToString(-n);
    }
  }

  function IndexOfDot(s: string): (i: nat)
    ensures i <= |s| && forall j :: 0 <= j < i ==> s[j] != '.'
    ensures i < |s| ==> s[i] == '.'
  {
    if s == [] then 0 else if s[0] == '.' then 0 else 1 + IndexOfDot(s[1..])
  }

  /** `float(s)` for text of the form [+|-]digits[.digits] with at least one digit. */
  function ParseFloat(s: string): (r: Option<real>)
  {
    var neg := |s| >= 1 && s[0] == '-';
    var body := if |s| >= 1 && (s[0] == '-' || s[0] == '+') then s[1..] else s;
    var d := IndexOfDot(body);
    var whole := body[..d];
    var frac := if d < |body| then body[d + 1..] else [];
    if |whole| + |frac| == 0 || !AllDigits(whole) || !AllDigits(frac) then None
    else
      var v := DigitsValue(whole) as real + DigitsValue(frac) as real / Pow10(|frac|) as real;
      Some(if neg then -v else v)
  }

  lemma ParseFloatOfNat(n: nat)
    ensures ParseFloat(NatToString(n)) == Some(n as real)
  {
    var s := NatToString(n);
    assert IsDigit(s[0]);
    DigitsHaveNoDot(s);
    assert s[..|s|] == s;
    var v := DigitsValue(s) as real + DigitsValue([]) as real / Pow10(0) as real;
    assert v == n as real;
    assert ParseFloat(s) == Some(v);
  }

  lemma DigitsHaveNoDot(s: string)
    requires AllDigits(s)
    ensures IndexOfDot(s) == |s|
  {
    forall j | 0 <= j < |s| ensures s[j] != '.' {
      assert IsDigit(s[j]);
    }
  }

  function Convert(t: FieldType, s: string): (r: Option<Value>)
    ensures r.Some? ==> HasType(r.value, t)
    ensures t == StrField ==> r == Some(StrValue(s))
  {
    match t
    case StrField => Some(StrValue(s))
    case IntField =>
      (match ParseInt(s)
       case Some(i) => Some(IntValue(i))
       case None => None)
    case FloatField =>
      (match ParseFloat(s)
       case Some(x) => Some(RealValue(x))
       case None => None)
  }

  /** Converts fields[i..] in order; the first field its converter rejects is
      reported by its index. */
  function ConvertFrom(fields: seq<string>, types: seq<FieldType>, i: nat): (r: Result<seq<Value>>)
    requires |fields| == |types| && i <= |fields|
    ensures r.Ok? <==> forall m :: i <= m < |fields| ==> Convert(types[m], fields[m]).Some?
    ensures r.Ok? ==> (|r.value| == |fields| - i
      && forall m :: i <= m < |fields| ==> Convert(types[m], fields[m]) == Some(r.value[m - i]))
    ensures r.Err? ==> (r.error.InvalidResponse? && r.error.problem.FieldConversion?
      && var j := r.error.problem.index;
         i <= j < |fields| && Convert(types[j], fields[j]).None?
         && forall m :: i <= m < j ==> Convert(types[m], fields[m]).Some?)
    decreases |fields| - i
  {
    if i == |fields| then Ok([])
    else
      match Convert(types[i], fields[i])
      case None => Err(InvalidResponse(FieldConversion(i)))
      case Some(v) =>
        match ConvertFrom(fields, types, i + 1)
        case Ok(vs) => Ok([v] + vs)
        case Err(e) => Err(e)
  }

  /** The fields `_run_query` cuts a stripped reply into for n converters
      (`rsplit(None, n - 1)`; with no converters the limit is -1, no limit). */
  function SplitFields(s: string, n: nat): seq<string> {
    if n == 0 then Words(s) else RSplit(s, n - 1)
  }

  /** `_run_query` after the write: the whole treatment of the line read back. */
  function ParseQueryReply(line: string, types: seq<FieldType>): (r: Result<seq<Value>>)
    ensures r.Ok? ==> |r.value| == |types| && forall i :: 0 <= i < |types| ==> HasType(r.value[i], types[i])
    ensures r.Err? ==> r.error.CommandTimeout? || r.error.InvalidResponse?
  {
    var s := Strip(line);
    if s == [] then Err(CommandTimeout)
    else
      var fields := SplitFields(s, |types|);
      if |fields| != |types| then Err(InvalidResponse(FieldCount(|types|, |fields|)))
      else ConvertFrom(fields, types, 0)
  }

  /** What a parsed reply means: an empty line is a timeout; otherwise the
      stripped line is cut into exactly as many fields as converters or the
      count is reported; with the count right the outcome is that of
      converting the fields in order, so each value is its field converted. */
  lemma QueryReplyMeaning(line: string, types: seq<FieldType>)
    ensures var r, s := ParseQueryReply(line, types), Strip(line);
      && (r == Err(CommandTimeout) <==> s == [])
      && (s != [] && |SplitFields(s, |types|)| != |types| ==>
            r == Err(InvalidResponse(FieldCount(|types|, |SplitFields(s, |types|)|))))
      && (s != [] && |SplitFields(s, |types|)| == |types| ==> r == ConvertFrom(SplitFields(s, |types|), types, 0))
      && (r.Ok? ==> |SplitFields(s, |types|)| == |types|)
      && (r.Ok? ==> forall i :: 0 <= i < |types| ==>
            HasType(r.value[i], types[i]) && Convert(types[i], SplitFields(s, |types|)[i]) == Some(r.value[i]))
  {
  }

  /** A query for n >= 1 fields succeeds only on a line holding at least n
      words; its last n - 1 fields are the line's last n - 1 words and the
      first field holds all the words before them. */
  lemma {:induction false} QueryFieldsAreRightSplit(s: string, n: nat)
    requires n >= 1 && s != [] && !IsSpace(s[0])
    requires |SplitFields(s, n)| == n
    ensures var w, f := Words(s), SplitFields(s, n);
      |w| >= n && f[1..] == w[|w| - (n - 1)..] && Words(f[0]) == w[..|w| - (n - 1)]
  {
    assert SplitFields(s, n) == RSplit(s, n - 1);
    RightSplitFields(s, n);
  }

  lemma RightSplitFields(s: string, n: nat)
    requires n >= 1 && s != [] && !IsSpace(s[0])
    requires |RSplit(s, n - 1)| == n
    ensures var w, f := Words(s), RSplit(s, n - 1);
      |w| >= n && f[1..] == w[|w| - (n - 1)..] && Words(f[0]) == w[..|w| - (n - 1)]
  {
    RSplitAgainstWords(s, n - 1);
    if |Words(s)| <= n {
      ExactWordCount(s, n);
    } else {
      MoreWordsThanFields(s, n);
    }
  }

  lemma MoreWordsThanFields(s: string, n: nat)
    requires n >= 1 && s != [] && !IsSpace(s[0])
    requires |RSplit(s, n - 1)| == n && |Words(s)| > n
    ensures var w, f := Words(s), RSplit(s, n - 1);
      f[1..] == w[|w| - (n - 1)..] && Words(f[0]) == w[..|w| - (n - 1)]
  {
    var k := n - 1;
    RSplitAgainstWords(s, k);
    assert |Words(s)| > k + 1;
  }

  lemma ExactWordCount(s: string, n: nat)
    requires n >= 1 && |Words(s)| <= n
    requires RSplit(s, n - 1) == Words(s) && |RSplit(s, n - 1)| == n
    ensures var w, f := Words(s), RSplit(s, n - 1);
      |w| >= n && f[1..] == w[|w| - (n - 1)..] && Words(f[0]) == w[..|w| - (n - 1)]
  {
    var w := Words(s);
    WordsSpec(s);
    WordsOfWord(w[0]);
    assert w[..1] == [w[0]];
  }

  lemma WordsOfWord(x: string)
    requires x != [] && NoSpace(x)
    ensures Words(x) == [x]
  {
    assert TrimRight(x) == x;
    LastTokenStartSpec(x);
    assert LastTokenStart(x) == 0;
  }

  // ---------------------------------------------------------------------
  // The three transport operations

  function Prepend(done: seq<Value>, r: Result<seq<Value>>): Result<seq<Value>> {
    match r
    case Ok(rest) => Ok(done + rest)
    case Err(e) => Err(e)
  }

  lemma PrependNothing(r: Result<seq<Value>>)
    ensures Prepend([], r) == r
  {
    match r
    case Ok(rest) => assert [] + rest == rest;
    case Err(_) =>
  }

  /** `_send_cmd`. */
  method SendCmd(port: Port, cmd: string)
    modifies port
    ensures port.written == old(port.written) + [Frame(cmd)]
    ensures port.replies == old(port.replies)
  {
    port.Write(cmd + "\r");
  }

  /** `_run_cmd`: one write, one single-byte read. */
  method RunCmd(port: Port, cmd: string, checkSuccess: bool) returns (r: Result<char>)
    modifies port
    ensures port.written == old(port.written) + [Frame(cmd)]
    ensures port.replies == Rest(old(port.replies))
    ensures r == ClassifyAck(AckByte(NthReply(old(port.replies), 0)), checkSuccess)
  {
    SendCmd(port, cmd);
    var reply := port.Read();
    r := ClassifyAck(AckByte(reply), checkSuccess);
  }

  /** `_run_query`: one write, one line read, converted field by field. */
  method RunQuery(port: Port, cmd: string, types: seq<FieldType>) returns (r: Result<seq<Value>>)
    modifies port
    ensures port.written == old(port.written) + [Frame(cmd)]
    ensures port.replies == Rest(old(port.replies))
    ensures r == ParseQueryReply(LineText(NthReply(old(port.replies), 0)), types)
  {
    SendCmd(port, cmd);
    var reply := port.Read();
    r := ParseLine(LineText(reply), types);
  }

  /** The part of `_run_query` after the read: strip, split, then convert. */
  method ParseLine(line: string, types: seq<FieldType>) returns (r: Result<seq<Value>>)
    ensures r == ParseQueryReply(line, types)
  {
    var resp := Strip(line);
    if resp == [] {
      return Err(CommandTimeout);
    }
    var fields := SplitFields(resp, |types|);
    if |fields| != |types| {
      return Err(InvalidResponse(FieldCount(|types|, |fields|)));
    }
    r := ConvertFields(fields, types);
  }

  /** The loop of `_run_query` that converts each field and appends it to the
      values returned, stopping at the first field its converter rejects. */
  method ConvertFields(fields: seq<string>, types: seq<FieldType>) returns (r: Result<seq<Value>>)
    requires |fields| == |types|
    ensures r == ConvertFrom(fields, types, 0)
  {
    var values: seq<Value> := [];
    var i := 0;
    PrependNothing(ConvertFrom(fields, types, 0));
    while i < |fields|
      invariant 0 <= i <= |fields|
      invariant ConvertFrom(fields, types, 0) == Prepend(values, ConvertFrom(fields, types, i))
    {
      var conv := Convert(types[i], fields[i]);
      ConvertStep(fields, types, i, values);
      if conv.None? {
        return Err(InvalidResponse(FieldConversion(i)));
      }
      values := values + [conv.value];
      i := i + 1;
    }
    assert values + [] == values;
    r := Ok(values);
  }

  lemma ConvertStep(fields: seq<string>, types: seq<FieldType>, i: nat, done: seq<Value>)
    requires |fields| == |types| && i < |fields|
    ensures Convert(types[i], fields[i]).None? ==>
      Prepend(done, ConvertFrom(fields, types, i)) == Err(InvalidResponse(FieldConversion(i)))
    ensures Convert(types[i], fields[i]).Some? ==>
      Prepend(done, ConvertFrom(fields, types, i))
      == Prepend(done + [Convert(types[i], fields[i]).value], ConvertFrom(fields, types, i + 1))
  {
    var c := Convert(types[i], fields[i]);
    if c.Some? {
      var tail := ConvertFrom(fields, types, i + 1);
      if tail.Ok? {
        assert done + ([c.value] + tail.value) == done + [c.value] + tail.value;
      }
    }
  }
}
