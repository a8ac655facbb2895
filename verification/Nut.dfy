/** Reading the reply of a NUT upsd to LIST VAR. Characters stand for bytes. */
module Nut {

  const MAX_LINE := 4096
  const MAX_VARS := 1024

  datatype Error =
    | LineTooLong | EndOfInput | UpsdError | UnexpectedReply | UnexpectedLine | TooManyVars
    | MissingValue | NotQuoted | UnescapedQuote | DanglingEscape

  datatype Result<+T> = Ok(value: T) | Err(error: Error)

  datatype Var = Var(name: string, value: string)

  // ----- Lines -----

  function IndexOf(s: string, c: char): (n: nat)
    ensures n <= |s| && (n < |s| ==> s[n] == c) && forall i :: 0 <= i < n ==> s[i] != c
  {
    if s == [] then 0 else if s[0] == c then 0 else
      var rest := IndexOf(s[1..], c);
      assert forall i :: 1 <= i < rest + 1 && i < |s| ==> s[i] == s[1..][i - 1];
      rest + 1
  }

  function TrimRight(s: string): string {
    if s != [] && (s[|s| - 1] == '\r' || s[|s| - 1] == '\n') then TrimRight(s[..|s| - 1]) else s
  }

  datatype Line = Line(text: string, rest: string)

  /** One line off the buffered reader: it must end within the buffer. */
  function ReadLine(input: string): (r: Result<Line>)
    ensures r.Ok? ==> |r.value.rest| < |input|
  {
    var n := IndexOf(input, '\n');
    if n < |input| && n < MAX_LINE then Ok(Line(TrimRight(input[..n + 1]), input[n + 1..]))
    else if |input| >= MAX_LINE then Err(LineTooLong)
    else Err(EndOfInput)
  }

  // ----- One variable -----

  function Escape(value: string): string {
    if value == [] then []
    else (if value[0] == '"' || value[0] == '\\' then ['\\', value[0]] else [value[0]]) + Escape(value[1..])
  }

  function Prepend(prefix: string, r: Result<string>): Result<string> {
    if r.Ok? then Ok(prefix + r.value) else r
  }

  function Unescape(body: string): Result<string> {
    if body == [] then Ok([])
    else if body[0] == '"' then Err(UnescapedQuote)
    else if body[0] != '\\' then Prepend([body[0]], Unescape(body[1..]))
    else if |body| == 1 then Err(DanglingEscape)
    else Prepend([body[1]], Unescape(body[2..]))
  }

  /** Splits `<name> "<value>"`. */
  function ParseVarSpec(rest: string): Result<Var> {
    var n := IndexOf(rest, ' ');
    if n == |rest| || n == 0 then Err(MissingValue)
    else
      var quoted := rest[n + 1..];
      if |quoted| < 2 || quoted[0] != '"' || quoted[|quoted| - 1] != '"' then Err(NotQuoted)
      else
        var value := Unescape(quoted[1..|quoted| - 1]);
        if value.Ok? then Ok(Var(rest[..n], value.value)) else Err(value.error)
  }

  method ParseVar(rest: string) returns (r: Result<Var>)
    ensures r == ParseVarSpec(rest)
  {
    var n := IndexOf(rest, ' ');
    if n == |rest| || n == 0 {
      return Err(MissingValue);
    }
    var quoted := rest[n + 1..];
    if |quoted| < 2 || quoted[0] != '"' || quoted[|quoted| - 1] != '"' {
      return Err(NotQuoted);
    }
    var value := UnescapeBody(quoted[1..|quoted| - 1]);
    if value.Err? {
      return Err(value.error);
    }
    r := Ok(Var(rest[..n], value.value));
  }

  lemma PrependTwice(a: string, b: string, r: Result<string>)
    ensures Prepend(a, Prepend(b, r)) == Prepend(a + b, r)
  {
    if r.Ok? {
      assert a + (b + r.value) == a + b + r.value;
    }
  }

  lemma PrependNothing(r: Result<string>)
    ensures Prepend([], r) == r
  {
    if r.Ok? {
      assert [] + r.value == r.value;
    }
  }

  method UnescapeBody(body: string) returns (r: Result<string>)
    ensures r == Unescape(body)
  {
    var value: string := [];
    var i := 0;
    assert body[0..] == body;
    PrependNothing(Unescape(body));
    while i < |body|
      invariant 0 <= i <= |body|
      invariant Unescape(body) == Prepend(value, Unescape(body[i..]))
    {
      var c := body[i];
      if c == '"' {
        return Err(UnescapedQuote);
      }
      ghost var at := i;
      if c == '\\' {
        i := i + 1;
        if i == |body| {
          return Err(DanglingEscape);
        }
        c := body[i];
        assert body[at..][2..] == body[i + 1..];
      } else {
        assert body[at..][1..] == body[i + 1..];
      }
      PrependTwice(value, [c], Unescape(body[i + 1..]));
      value := value + [c];
      i := i + 1;
    }
    assert value + [] == value;
    r := Ok(value);
  }

  // ----- The whole reply -----

  function BeginLine(ups: string): string { "BEGIN LIST VAR " + ups }
  function EndLine(ups: string): string { "END LIST VAR " + ups }
  function VarPrefix(ups: string): string { "VAR " + ups + " " }

  predicate IsUpsdError(line: string) { "ERR " <= line }

  /** The variable lines up to the END line. */
  function ReadVars(input: string, ups: string, vars: map<string, string>): Result<map<string, string>>
    decreases |input|
  {
    var line := ReadLine(input);
    if line.Err? then Err(line.error)
    else if line.value.text == EndLine(ups) then Ok(vars)
    else if !(VarPrefix(ups) <= line.value.text) then Err(UnexpectedLine)
    else
      var v := ParseVarSpec(line.value.text[|VarPrefix(ups)|..]);
      if v.Err? then Err(v.error)
      else if |vars| >= MAX_VARS then Err(TooManyVars)
      else ReadVars(line.value.rest, ups, vars[v.value.name := v.value.value])
  }

  function ReadReply(input: string, ups: string): Result<map<string, string>> {
    var line := ReadLine(input);
    if line.Err? then Err(line.error)
    else if IsUpsdError(line.value.text) then Err(UpsdError)
    else if line.value.text != BeginLine(ups) then Err(UnexpectedReply)
    else ReadVars(line.value.rest, ups, map[])
  }

  method ReadVarList(input: string, ups: string) returns (r: Result<map<string, string>>)
    ensures r == ReadReply(input, ups)
  {
    var line := ReadLine(input);
    if line.Err? {
      return Err(line.error);
    }
    if IsUpsdError(line.value.text) {
      return Err(UpsdError);
    }
    if line.value.text != BeginLine(ups) {
      return Err(UnexpectedReply);
    }
    var rest := line.value.rest;
    var vars: map<string, string> := map[];
    while true
      invariant ReadVars(rest, ups, vars) == ReadReply(input, ups)
      decreases |rest|
    {
      line := ReadLine(rest);
      if line.Err? {
        return Err(line.error);
      }
      if line.value.text == EndLine(ups) {
        return Ok(vars);
      }
      if !(VarPrefix(ups) <= line.value.text) {
        return Err(UnexpectedLine);
      }
      var v := ParseVar(line.value.text[|VarPrefix(ups)|..]);
      if v.Err? {
        return Err(v.error);
      }
      if |vars| >= MAX_VARS {
        return Err(TooManyVars);
      }
      vars := vars[v.value.name := v.value.value];
      rest := line.value.rest;
    }
  }

  // ----- Printing a reply, as upsd does -----

  predicate NoNewline(s: string) { '\n' !in s }

  /** What a UPS name may be: it cannot break a line. */
  predicate ValidUps(ups: string) { ups != [] && '\n' !in ups && '\r' !in ups }

  predicate ValidVar(v: Var) {
    v.name != [] && ' ' !in v.name && NoNewline(v.name) && NoNewline(v.value)
  }

  predicate ValidVars(vars: seq<Var>) { forall i :: 0 <= i < |vars| ==> ValidVar(vars[i]) }

  function Shown(v: Var): string { v.name + (" " + (("\"" + Escape(v.value)) + "\"")) }

  function PrintVar(ups: string, v: Var): string { VarPrefix(ups) + Shown(v) }

  function PrintVars(ups: string, vars: seq<Var>): string {
    if vars == [] then EndLine(ups) + "\n"
    else (PrintVar(ups, vars[0]) + "\n") + PrintVars(ups, vars[1..])
  }

  function PrintReply(ups: string, vars: seq<Var>): string {
    (BeginLine(ups) + "\n") + PrintVars(ups, vars)
  }

  /** Later duplicates win. */
  function AddAll(vars: seq<Var>, m: map<string, string>): map<string, string> {
    if vars == [] then m else AddAll(vars[1..], m[vars[0].name := vars[0].value])
  }

  /** The lines fit the reader's buffer, and no variable comes after MAX_VARS distinct
      ones. */
  predicate Fits(ups: string, vars: seq<Var>, m: map<string, string>) {
    if vars == [] then |EndLine(ups)| < MAX_LINE
    else |PrintVar(ups, vars[0])| < MAX_LINE && |m| < MAX_VARS
         && Fits(ups, vars[1..], m[vars[0].name := vars[0].value])
  }

  // ----- Lemmas about lines -----

  lemma IndexAfter(prefix: string, c: char, rest: string)
    requires c !in prefix
    ensures IndexOf(prefix + [c] + rest, c) == |prefix|
  {
    var s := prefix + [c] + rest;
    assert forall i :: 0 <= i < |prefix| ==> s[i] == prefix[i] && prefix[i] in prefix;
    assert s[|prefix|] == c;
  }

  lemma TrimKeeps(text: string)
    requires text != [] && text[|text| - 1] != '\r' && text[|text| - 1] != '\n'
    ensures TrimRight(text + "\n") == text
  {
    assert (text + "\n")[..|text|] == text;
  }

  /** A newline-free text that does not end in a carriage return is read back as one line,
      if it fits the buffer; otherwise the read fails. */
  lemma ReadPrinted(text: string, rest: string)
    requires text != [] && NoNewline(text) && text[|text| - 1] != '\r'
    ensures ReadLine((text + "\n") + rest) ==
            if |text| < MAX_LINE then Ok(Line(text, rest)) else Err(LineTooLong)
  {
    var input := (text + "\n") + rest;
    assert input == text + ['\n'] + rest;
    IndexAfter(text, '\n', rest);
    assert text[|text| - 1] in text;
    TrimKeeps(text);
    assert input[..|text| + 1] == text + "\n";
    assert input[|text| + 1..] == rest;
  }

  /** Input that ends before the newline is not a line. */
  lemma ReadTruncated(text: string)
    requires NoNewline(text)
    ensures ReadLine(text).Err?
  {
    assert forall i :: 0 <= i < |text| ==> text[i] in text;
  }

  // ----- Lemmas about one variable -----

  lemma {:induction false} UnescapeEscape(value: string)
    ensures Unescape(Escape(value)) == Ok(value)
  {
    if value != [] {
      UnescapeEscape(value[1..]);
      var rest := Escape(value[1..]);
      assert value == [value[0]] + value[1..];
      if value[0] == '"' || value[0] == '\\' {
        assert Escape(value) == ['\\', value[0]] + rest;
        assert Escape(value)[2..] == rest;
      } else {
        assert Escape(value) == [value[0]] + rest;
        assert Escape(value)[1..] == rest;
      }
    }
  }

  lemma {:induction false} UnescapedQuoteInBody(before: string, after: string)
    ensures Unescape(Escape(before) + "\"" + after) == Err(UnescapedQuote)
  {
    var body := Escape(before) + "\"" + after;
    if before != [] {
      UnescapedQuoteInBody(before[1..], after);
      var rest := Escape(before[1..]) + "\"" + after;
      if before[0] == '"' || before[0] == '\\' {
        assert body[2..] == rest;
      } else {
        assert body[1..] == rest;
      }
    }
  }

  lemma ParseQuoted(name: string, body: string)
    requires name != [] && ' ' !in name
    ensures ParseVarSpec(name + (" " + (("\"" + body) + "\""))) ==
            if Unescape(body).Ok? then Ok(Var(name, Unescape(body).value)) else Err(Unescape(body).error)
  {
    var quoted := ("\"" + body) + "\"";
    var rest := name + (" " + quoted);
    assert rest == name + [' '] + quoted;
    IndexAfter(name, ' ', quoted);
    assert rest[..|name|] == name && rest[|name| + 1..] == quoted;
    assert quoted[1..|quoted| - 1] == body;
  }

  ghost predicate QuotedAs(rest: string, v: Var, body: string) {
    rest == v.name + (" " + (("\"" + body) + "\"")) && Unescape(body) == Ok(v.value)
  }

  /** What the parser accepts is exactly a non-empty space-free name and a quoted body that
      unescapes. */
  lemma AcceptedVarShape(rest: string, v: Var) returns (body: string)
    requires ParseVarSpec(rest) == Ok(v)
    ensures v.name != [] && ' ' !in v.name
    ensures QuotedAs(rest, v, body)
  {
    var n := IndexOf(rest, ' ');
    var quoted := rest[n + 1..];
    body := quoted[1..|quoted| - 1];
    assert quoted == ("\"" + body) + "\"";
    assert rest == rest[..n] + (" " + quoted);
  }

  lemma {:induction false} EscapeKeepsLine(value: string)
    requires NoNewline(value)
    ensures NoNewline(Escape(value))
  {
    if value != [] {
      assert value[0] in value;
      assert forall c :: c in value[1..] ==> c in value;
      EscapeKeepsLine(value[1..]);
    }
  }

  lemma ShownIsLine(v: Var)
    requires ValidVar(v)
    ensures NoNewline(Shown(v)) && |Shown(v)| > 0 && Shown(v)[|Shown(v)| - 1] == '"'
  {
    EscapeKeepsLine(v.value);
  }

  lemma PrintVarIsLine(ups: string, v: Var)
    requires ValidUps(ups) && ValidVar(v)
    ensures var text := PrintVar(ups, v);
            && text != [] && NoNewline(text) && text[|text| - 1] != '\r'
            && VarPrefix(ups) <= text && text != EndLine(ups)
            && ParseVarSpec(text[|VarPrefix(ups)|..]) == Ok(v)
  {
    ShownIsLine(v);
    UnescapeEscape(v.value);
    ParseQuoted(v.name, Escape(v.value));
    assert PrintVar(ups, v)[0] == 'V' && EndLine(ups)[0] == 'E';
  }

  lemma EndIsLine(ups: string)
    requires ValidUps(ups)
    ensures var text := EndLine(ups); text != [] && NoNewline(text) && text[|text| - 1] != '\r'
    ensures var text := BeginLine(ups); text != [] && NoNewline(text) && text[|text| - 1] != '\r'
  {
    assert ups[|ups| - 1] in ups;
  }

  // ----- Round trip and rejection -----

  /** Reading one printed variable moves on to the rest, if it fits. */
  lemma ReadOneVar(ups: string, v: Var, rest: string, m: map<string, string>)
    requires ValidUps(ups) && ValidVar(v)
    ensures ReadVars((PrintVar(ups, v) + "\n") + rest, ups, m) ==
            if |PrintVar(ups, v)| >= MAX_LINE then Err(LineTooLong)
            else if |m| >= MAX_VARS then Err(TooManyVars)
            else ReadVars(rest, ups, m[v.name := v.value])
  {
    PrintVarIsLine(ups, v);
    ReadPrinted(PrintVar(ups, v), rest);
  }

  /** Reading printed variables, after which anything may follow. */
  lemma {:induction false} ReadPrintedVars(ups: string, vars: seq<Var>, m: map<string, string>, tail: string)
    requires ValidUps(ups) && ValidVars(vars)
    ensures Fits(ups, vars, m) ==> ReadVars(PrintVars(ups, vars) + tail, ups, m) == Ok(AddAll(vars, m))
    ensures !Fits(ups, vars, m) ==> ReadVars(PrintVars(ups, vars) + tail, ups, m).Err?
    decreases |vars|
  {
    if vars == [] {
      EndIsLine(ups);
      ReadPrinted(EndLine(ups), tail);
    } else {
      var v := vars[0];
      var rest := PrintVars(ups, vars[1..]) + tail;
      assert PrintVars(ups, vars) + tail == (PrintVar(ups, v) + "\n") + rest;
      ReadOneVar(ups, v, rest, m);
      ReadPrintedVars(ups, vars[1..], m[v.name := v.value], tail);
    }
  }

  /** Reading a printed reply gives exactly the printed variables, later duplicates
      winning, if and only if the lines and the number of variables fit; otherwise it is
      rejected. */
  lemma ReplyRoundTrip(ups: string, vars: seq<Var>, tail: string)
    requires ValidUps(ups) && ValidVars(vars)
    ensures |BeginLine(ups)| < MAX_LINE && Fits(ups, vars, map[]) ==>
              ReadReply(PrintReply(ups, vars) + tail, ups) == Ok(AddAll(vars, map[]))
    ensures !(|BeginLine(ups)| < MAX_LINE && Fits(ups, vars, map[])) ==>
              ReadReply(PrintReply(ups, vars) + tail, ups).Err?
  {
    EndIsLine(ups);
    var rest := PrintVars(ups, vars) + tail;
    assert PrintReply(ups, vars) + tail == (BeginLine(ups) + "\n") + rest;
    ReadPrinted(BeginLine(ups), rest);
    assert BeginLine(ups)[0] == 'B';
    assert !IsUpsdError(BeginLine(ups));
    ReadPrintedVars(ups, vars, map[], tail);
  }

  /** Short lines and at most 1024 variables always fit. */
  lemma {:induction false} SmallRepliesFit(ups: string, vars: seq<Var>, m: map<string, string>)
    requires |EndLine(ups)| < MAX_LINE && |m| + |vars| <= MAX_VARS
    requires forall i :: 0 <= i < |vars| ==> |PrintVar(ups, vars[i])| < MAX_LINE
    ensures Fits(ups, vars, m)
    decreases |vars|
  {
    if vars != [] {
      var m' := m[vars[0].name := vars[0].value];
      assert m'.Keys == m.Keys + {vars[0].name};
      assert |m'| == |m'.Keys| && |m| == |m.Keys|;
      SmallRepliesFit(ups, vars[1..], m');
    }
  }

  /** A line cut off before its newline is rejected. */
  lemma CutLine(text: string, rest: string, k: nat, ups: string, m: map<string, string>)
    requires NoNewline(text) && k <= |text|
    ensures ((text + "\n") + rest)[..k] == text[..k]
    ensures ReadVars(text[..k], ups, m).Err?
  {
    assert forall c :: c in text[..k] ==> c in text;
    ReadTruncated(text[..k]);
  }

  lemma CutLater(text: string, rest: string, k: nat)
    requires |text| < k <= |text| + 1 + |rest|
    ensures ((text + "\n") + rest)[..k] == (text + "\n") + rest[..k - |text| - 1]
  {
  }

  lemma {:induction false} TruncatedVarsRejected(ups: string, vars: seq<Var>, m: map<string, string>, k: nat)
    requires ValidUps(ups) && ValidVars(vars) && k < |PrintVars(ups, vars)|
    ensures ReadVars(PrintVars(ups, vars)[..k], ups, m).Err?
    decreases |vars|
  {
    if vars == [] {
      EndIsLine(ups);
      CutLine(EndLine(ups), [], k, ups, m);
      assert PrintVars(ups, vars) == (EndLine(ups) + "\n") + [];
    } else {
      var text := PrintVar(ups, vars[0]);
      var rest := PrintVars(ups, vars[1..]);
      PrintVarIsLine(ups, vars[0]);
      if k <= |text| {
        CutLine(text, rest, k, ups, m);
      } else {
        CutLater(text, rest, k);
        ReadOneVar(ups, vars[0], rest[..k - |text| - 1], m);
        TruncatedVarsRejected(ups, vars[1..], m[vars[0].name := vars[0].value], k - |text| - 1);
      }
    }
  }

  /** A reply cut off anywhere is rejected. */
  lemma TruncatedReplyRejected(ups: string, vars: seq<Var>, k: nat)
    requires ValidUps(ups) && ValidVars(vars) && k < |PrintReply(ups, vars)|
    ensures ReadReply(PrintReply(ups, vars)[..k], ups).Err?
  {
    EndIsLine(ups);
    var text := BeginLine(ups);
    if k <= |text| {
      assert PrintReply(ups, vars)[..k] == text[..k];
      assert forall c :: c in text[..k] ==> c in text;
      ReadTruncated(text[..k]);
    } else {
      var more := PrintVars(ups, vars)[..k - |text| - 1];
      assert PrintReply(ups, vars)[..k] == (text + "\n") + more;
      ReadPrinted(text, more);
      TruncatedVarsRejected(ups, vars, map[], k - |text| - 1);
    }
  }

  /** A line that is not the END line, and is no variable of this UPS or does not parse. */
  predicate Refused(ups: string, text: string) {
    && text != [] && NoNewline(text) && text[|text| - 1] != '\r'
    && text != EndLine(ups)
    && (VarPrefix(ups) <= text ==> ParseVarSpec(text[|VarPrefix(ups)|..]).Err?)
  }

  /** The variable lines without the END line. */
  function PrintLines(ups: string, vars: seq<Var>): string {
    if vars == [] then [] else (PrintVar(ups, vars[0]) + "\n") + PrintLines(ups, vars[1..])
  }

  lemma {:induction false} RefusedAmongVars(ups: string, vars: seq<Var>, m: map<string, string>, text: string,
                                            tail: string)
    requires ValidUps(ups) && ValidVars(vars) && Refused(ups, text)
    ensures ReadVars(PrintLines(ups, vars) + ((text + "\n") + tail), ups, m).Err?
    decreases |vars|
  {
    var line := (text + "\n") + tail;
    if vars == [] {
      assert PrintLines(ups, vars) + line == line;
      ReadPrinted(text, tail);
    } else {
      var rest := PrintLines(ups, vars[1..]) + line;
      assert PrintLines(ups, vars) + line == (PrintVar(ups, vars[0]) + "\n") + rest;
      ReadOneVar(ups, vars[0], rest, m);
      RefusedAmongVars(ups, vars[1..], m[vars[0].name := vars[0].value], text, tail);
    }
  }

  /** A reply whose lines are these variables, then `text`, then anything. */
  function ReplyWith(ups: string, vars: seq<Var>, text: string, tail: string): string {
    (BeginLine(ups) + "\n") + (PrintLines(ups, vars) + ((text + "\n") + tail))
  }

  /** One refused line makes the whole reply fail, however many variables came before it and
      whatever follows. */
  lemma RefusedLineRejected(ups: string, vars: seq<Var>, text: string, tail: string)
    requires ValidUps(ups) && ValidVars(vars) && Refused(ups, text)
    ensures ReadReply(ReplyWith(ups, vars, text, tail), ups).Err?
  {
    EndIsLine(ups);
    ReadPrinted(BeginLine(ups), PrintLines(ups, vars) + ((text + "\n") + tail));
    RefusedAmongVars(ups, vars, map[], text, tail);
  }

  /** A line that is neither a variable of this UPS nor the END line is refused. */
  lemma ForeignLineRejected(ups: string, vars: seq<Var>, text: string, tail: string)
    requires ValidUps(ups) && ValidVars(vars)
    requires text != [] && NoNewline(text) && text[|text| - 1] != '\r'
    requires text != EndLine(ups) && !(VarPrefix(ups) <= text)
    ensures ReadReply(ReplyWith(ups, vars, text, tail), ups).Err?
  {
    RefusedLineRejected(ups, vars, text, tail);
  }

  /** A variable line whose value holds a quote that is not escaped, after `before` and
      followed by any text. */
  function QuoteInside(ups: string, name: string, before: string, after: string): string {
    VarPrefix(ups) + (name + (" " + (("\"" + (Escape(before) + "\"" + after)) + "\"")))
  }

  /** A quote that is not escaped is rejected wherever it stands: the variable does not parse,
      and the reply it stands in fails. */
  lemma UnescapedQuoteRejected(ups: string, vars: seq<Var>, name: string, before: string, after: string, tail: string)
    requires ValidUps(ups) && ValidVars(vars) && ValidVar(Var(name, before)) && NoNewline(after)
    ensures ParseVarSpec(QuoteInside(ups, name, before, after)[|VarPrefix(ups)|..]) == Err(UnescapedQuote)
    ensures ReadReply(ReplyWith(ups, vars, QuoteInside(ups, name, before, after), tail), ups).Err?
  {
    var body := Escape(before) + "\"" + after;
    var shown := name + (" " + (("\"" + body) + "\""));
    UnescapedQuoteInBody(before, after);
    ParseQuoted(name, body);
    EscapeKeepsLine(before);
    assert QuoteInside(ups, name, before, after)[0] == 'V' && EndLine(ups)[0] == 'E';
    RefusedLineRejected(ups, vars, QuoteInside(ups, name, before, after), tail);
  }
}
