/** The Satellite line protocol: the tokenizer that reads a line, and the lines the server
    writes. Strings are bytes in the source and characters below 256 here. */
module SatelliteWire {
  import opened Wrappers

  // ---------------------------------------------------------------- the tokenizer

  /** The tokenizer between two characters: the tokens so far, the one being built, whether a
      quote is open, and whether the last character was a backslash still to be resolved. */
  datatype Lexer = Lexer(toks: seq<string>, buf: string, inQuote: bool, escaped: bool)

  const Begin := Lexer([], "", false, false)

  function Flush(toks: seq<string>, buf: string): seq<string> {
    if buf == "" then toks else toks + [buf]
  }

  function Step(l: Lexer, c: char): Lexer {
    if l.escaped then l.(buf := l.buf + [c], escaped := false)
    else if c == '\\' then l.(escaped := true)
    else if c == '\"' then l.(inQuote := !l.inQuote)
    else if c == ' ' && !l.inQuote then l.(toks := Flush(l.toks, l.buf), buf := "")
    else l.(buf := l.buf + [c])
  }

  function Run(l: Lexer, s: string): Lexer
    decreases s
  {
    if s == "" then l else Run(Step(l, s[0]), s[1..])
  }

  /** A backslash with nothing after it stands for itself. */
  function Finish(l: Lexer): seq<string> {
    Flush(l.toks, if l.escaped then l.buf + "\\" else l.buf)
  }

  function Tokens(s: string): seq<string> { Finish(Run(Begin, s)) }

  /** The byte loop: an escape consumes two characters at once, and only when there is a second
      one. */
  method Tokenize(s: string) returns (toks: seq<string>)
    ensures toks == Tokens(s)
  {
    toks := [];
    var buf := "";
    var inQuote := false;
    var i := 0;
    while i < |s|
      invariant 0 <= i <= |s|
      invariant Finish(Run(Lexer(toks, buf, inQuote, false), s[i..])) == Tokens(s)
    {
      ghost var l := Lexer(toks, buf, inQuote, false);
      var c := s[i];
      assert s[i..] == [c] + s[i + 1..];
      if c == '\\' && i + 1 < |s| {
        assert s[i + 1..] == [s[i + 1]] + s[i + 2..];
        i := i + 1;
        buf := buf + [s[i]];
        assert Run(l, s[i - 1..]) == Run(Lexer(toks, buf, inQuote, false), s[i + 1..]);
      } else if c == '\\' {
        assert s[i + 1..] == "";
        assert Run(l, s[i..]) == l.(escaped := true);
        buf := buf + [c];
      } else if c == '\"' {
        inQuote := !inQuote;
      } else if c == ' ' && !inQuote {
        toks := Flush(toks, buf);
        buf := "";
      } else {
        buf := buf + [c];
      }
      i := i + 1;
    }
    assert s[i..] == "";
    toks := Flush(toks, buf);
  }

  lemma {:induction false} RunConcat(l: Lexer, a: string, b: string)
    ensures Run(l, a + b) == Run(Run(l, a), b)
    decreases a
  {
    if a == "" {
      assert a + b == b;
    } else {
      RunConcat(Step(l, a[0]), a[1..], b);
      assert (a + b)[1..] == a[1..] + b;
    }
  }

  /** What has been tokenized already does not affect the rest. */
  lemma {:induction false} RunAfter(toks: seq<string>, l: Lexer, s: string)
    ensures Run(l.(toks := toks + l.toks), s) == Run(l, s).(toks := toks + Run(l, s).toks)
    decreases s
  {
    if s != "" {
      var l' := Step(l, s[0]);
      RunAfter(toks, l', s[1..]);
      assert toks + (l.toks + [l.buf]) == (toks + l.toks) + [l.buf];
      assert Step(l.(toks := toks + l.toks), s[0]) == l'.(toks := toks + l'.toks);
    }
  }

  /** The piece ends outside quotes, with no backslash waiting for its character. */
  predicate EndsClean(s: string) { !Run(Begin, s).inQuote && !Run(Begin, s).escaped }

  lemma CleanPieceThenSpace(a: string, b: string)
    requires EndsClean(a)
    ensures Tokens(a + " " + b) == Tokens(a) + Tokens(b)
    ensures EndsClean(b) ==> EndsClean(a + " " + b)
  {
    var l := Run(Begin, a);
    RunConcat(Begin, a + " ", b);
    RunConcat(Begin, a, " ");
    assert Run(l, " ") == Step(l, ' ');
    var toks := Flush(l.toks, l.buf);
    RunAfter(toks, Begin, b);
    assert toks + Begin.toks == toks;
    var r := Run(Begin, b);
    assert toks + (r.toks + [r.buf]) == (toks + r.toks) + [r.buf];
  }

  /** Tokenizing distributes over pieces joined by a space exactly when the first ends outside
      quotes and escapes. */
  lemma TokenizingDistributesExactly(a: string)
    ensures (forall b :: Tokens(a + " " + b) == Tokens(a) + Tokens(b)) <==> EndsClean(a)
  {
    if EndsClean(a) {
      forall b ensures Tokens(a + " " + b) == Tokens(a) + Tokens(b) {
        CleanPieceThenSpace(a, b);
      }
    } else {
      var l := Run(Begin, a);
      RunConcat(Begin, a, " ");
      assert Run(l, " ") == Step(l, ' ');
      assert a + " " + "" == a + " ";
      assert Tokens("") == [];
      assert Tokens(a + " ") == l.toks + [l.buf + " "];
      var last := if l.escaped then l.buf + "\\" else l.buf;
      assert last != l.buf + " " by {
        if l.escaped {
          assert last[|l.buf|] != (l.buf + " ")[|l.buf|];
        }
      }
      assert Tokens(a) != Tokens(a + " ") by {
        if last != "" {
          assert Tokens(a)[|l.toks|] != Tokens(a + " ")[|l.toks|];
        }
      }
      assert Tokens(a + " " + "") != Tokens(a) + Tokens("");
    }
  }

  /** No token is empty, however many spaces there are and whatever is quoted. */
  lemma TokensAreNonEmpty(s: string)
    ensures "" !in Tokens(s)
  {
    RunKeepsNonEmpty(Begin, s);
  }

  lemma {:induction false} RunKeepsNonEmpty(l: Lexer, s: string)
    requires "" !in l.toks
    ensures "" !in Run(l, s).toks
    decreases s
  {
    if s != "" {
      RunKeepsNonEmpty(Step(l, s[0]), s[1..]);
    }
  }

  // ---------------------------------------------------------------- parsing a line

  /** The position of the first '=', or the length when there is none. */
  function EqualsAt(tok: string): (i: nat)
    ensures i <= |tok|
    ensures '=' !in tok[..i] && (i < |tok| ==> tok[i] == '=')
  {
    if tok == "" || tok[0] == '=' then 0
    else
      var i := 1 + EqualsAt(tok[1..]);
      assert tok[..i] == [tok[0]] + tok[1..][..i - 1];
      i
  }

  function ArgName(tok: string): string { tok[..EqualsAt(tok)] }

  function ArgValue(tok: string): string {
    if EqualsAt(tok) == |tok| then "" else tok[EqualsAt(tok) + 1..]
  }

  /** The arguments of a token list, later ones winning. */
  function Args(toks: seq<string>): map<string, string> {
    if toks == [] then map[]
    else Args(toks[..|toks| - 1])[ArgName(toks[|toks| - 1]) := ArgValue(toks[|toks| - 1])]
  }

  datatype Line = Line(cmd: string, args: map<string, string>)

  function Parsed(line: string): Line {
    var toks := Tokens(line);
    if toks == [] then Line("", map[]) else Line(toks[0], Args(toks[1..]))
  }

  method ParseSatelliteLine(line: string) returns (cmd: string, args: map<string, string>)
    ensures Line(cmd, args) == Parsed(line)
  {
    var toks := Tokenize(line);
    args := map[];
    if |toks| == 0 {
      return "", args;
    }
    cmd := toks[0];
    var rest := toks[1..];
    for i := 0 to |rest|
      invariant args == Args(rest[..i])
    {
      var tok := rest[i];
      var eq := EqualsAt(tok);
      if eq == |tok| {
        args := args[tok := ""];
      } else {
        args := args[tok[..eq] := tok[eq + 1..]];
      }
      assert rest[..i + 1][..i] == rest[..i];
      assert tok[..|tok|] == tok;
    }
    assert rest[..|rest|] == rest;
  }

  // ---------------------------------------------------------------- printing

  predicate IsDigit(c: char) { '0' <= c <= '9' }

  function Digit(d: nat): (c: char)
    requires d < 10
    ensures IsDigit(c)
  {
    '0' + d as char
  }

  function Decimal(n: nat): (s: string)
    ensures s != "" && forall c :: c in s ==> IsDigit(c)
  {
    if n < 10 then [Digit(n)] else Decimal(n / 10) + [Digit(n % 10)]
  }

  function Itoa(n: int): string {
    if n < 0 then "-" + Decimal(-n) else Decimal(n)
  }

  function DigitValue(c: char): nat { if IsDigit(c) then (c - '0') as nat else 0 }

  function ParseDecimal(s: string): nat {
    if s == "" then 0 else 10 * ParseDecimal(s[..|s| - 1]) + DigitValue(s[|s| - 1])
  }

  /** Reads back a decimal integer, or nothing when the string is not one. */
  function Atoi(s: string): Option<int> {
    var digits := if s != "" && (s[0] == '-' || s[0] == '+') then s[1..] else s;
    if digits == "" || exists c :: c in digits && !IsDigit(c) then None
    else
      var n: int := ParseDecimal(digits);
      Some(if s[0] == '-' then -n else n)
  }

  lemma {:induction false} DecimalRoundTrips(n: nat)
    ensures ParseDecimal(Decimal(n)) == n
  {
    if n >= 10 {
      DecimalRoundTrips(n / 10);
      var s := Decimal(n);
      assert s[..|s| - 1] == Decimal(n / 10);
    }
  }

  lemma AtoiReadsDigits(s: string)
    requires s != "" && forall c :: c in s ==> IsDigit(c)
    ensures Atoi(s) == Some(ParseDecimal(s) as int) && Atoi("-" + s) == Some(-(ParseDecimal(s) as int))
  {
    assert s[0] in s;
    assert ("-" + s)[0] == '-' && ("-" + s)[1..] == s;
  }

  lemma ItoaRoundTrips(n: int)
    ensures Atoi(Itoa(n)) == Some(n)
  {
    var m: nat := if n < 0 then -n else n;
    DecimalRoundTrips(m);
    AtoiReadsDigits(Decimal(m));
  }

  function BoolWire(b: bool): string { if b then "true" else "false" }

  function Lower(c: char): char { if 'A' <= c <= 'Z' then c - 'A' + 'a' else c }

  predicate ParseWireBool(v: string) {
    v == "1" || (|v| == 4 && [Lower(v[0]), Lower(v[1]), Lower(v[2]), Lower(v[3])] == "true")
  }

  /** Companion's true is "1" or the word in any letter case, and nothing else. */
  lemma WireBoolExactly(v: string)
    ensures ParseWireBool(v) <==>
            || v == "1"
            || (&& |v| == 4 && (v[0] == 't' || v[0] == 'T') && (v[1] == 'r' || v[1] == 'R')
                && (v[2] == 'u' || v[2] == 'U') && (v[3] == 'e' || v[3] == 'E'))
  {
    if |v| == 4 {
      assert [Lower(v[0]), Lower(v[1]), Lower(v[2]), Lower(v[3])] == "true" <==>
             Lower(v[0]) == 't' && Lower(v[1]) == 'r' && Lower(v[2]) == 'u' && Lower(v[3]) == 'e';
    }
  }

  predicate PrintableAscii(s: string) { forall c :: c in s ==> ' ' <= c <= '~' }

  function Escape(s: string): string {
    if s == "" then ""
    else (if s[0] == '\"' || s[0] == '\\' then "\\" + [s[0]] else [s[0]]) + Escape(s[1..])
  }

  /** A printable ASCII string between double quotes, its quotes and backslashes escaped. */
  function Quote(s: string): string { "\"" + Escape(s) + "\"" }

  /** An argument of a line: a value, written bare or between quotes, or a bare flag. */
  datatype Field = Field(name: string, value: string, quoted: bool) | Flag(name: string)

  /** A flag reads as an argument of empty value. */
  function Value(f: Field): string { if f.Flag? then "" else f.value }

  function Piece(f: Field): string {
    if f.Flag? then f.name else f.name + "=" + if f.quoted then Quote(f.value) else f.value
  }

  /** A command and its arguments, a space between each two. */
  function LineOf(cmd: string, fields: seq<Field>): string {
    if fields == [] then cmd
    else LineOf(cmd, fields[..|fields| - 1]) + " " + Piece(fields[|fields| - 1])
  }

  function PressFields(id: string, key: int, pressed: bool): seq<Field> {
    [Field("DEVICEID", id, false), Field("KEY", Itoa(key), false), Field("PRESSED", BoolWire(pressed), false)]
  }

  function PressLine(id: string, key: int, pressed: bool): string {
    LineOf("KEY-PRESS", PressFields(id, key, pressed))
  }

  function RegisterFields(id: string, product: string, keysTotal: int, keysPerRow: int, bitmaps: int): seq<Field> {
    [Field("DEVICEID", id, false), Field("PRODUCT_NAME", product, true), Field("KEYS_TOTAL", Itoa(keysTotal), false),
     Field("KEYS_PER_ROW", Itoa(keysPerRow), false), Field("BITMAPS", Itoa(bitmaps), false),
     Field("COLORS", "hex", false)]
  }

  function RegisterLine(id: string, product: string, keysTotal: int, keysPerRow: int, bitmaps: int): string {
    LineOf("ADD-DEVICE", RegisterFields(id, product, keysTotal, keysPerRow, bitmaps))
  }

  // ---------------------------------------------------------------- one piece at a time

  /** No character of the piece is special to the tokenizer. */
  predicate Plain(s: string) { forall c :: c in s ==> c != ' ' && c != '\"' && c != '\\' }

  lemma {:induction false} RunPlain(l: Lexer, s: string)
    requires Plain(s) && !l.escaped
    ensures Run(l, s) == l.(buf := l.buf + s)
    decreases s
  {
    if s != "" {
      assert s[0] in s && forall c :: c in s[1..] ==> c in s;
      RunPlain(Step(l, s[0]), s[1..]);
      assert l.buf + [s[0]] + s[1..] == l.buf + s;
    }
  }

  lemma PlainPiece(s: string)
    requires Plain(s) && s != ""
    ensures Tokens(s) == [s] && EndsClean(s)
  {
    RunPlain(Begin, s);
    assert "" + s == s;
  }

  lemma {:induction false} RunEscape(l: Lexer, s: string)
    requires l.inQuote && !l.escaped
    ensures Run(l, Escape(s)) == l.(buf := l.buf + s)
    decreases s
  {
    if s == "" {
      assert l.buf + s == l.buf;
    } else {
      var head := if s[0] == '\"' || s[0] == '\\' then "\\" + [s[0]] else [s[0]];
      var l' := l.(buf := l.buf + [s[0]]);
      assert Run(l, head) == l' by {
        assert head[1..] == if |head| == 2 then [s[0]] else "";
        if |head| == 2 {
          assert Run(Step(l, '\\'), [s[0]]) == Run(l', "") by {
            assert [s[0]][1..] == "";
          }
        }
      }
      RunConcat(l, head, Escape(s[1..]));
      RunEscape(l', s[1..]);
      assert l.buf + [s[0]] + s[1..] == l.buf + s;
    }
  }

  lemma RunQuote(l: Lexer, s: string)
    requires !l.inQuote && !l.escaped
    ensures Run(l, Quote(s)) == l.(buf := l.buf + s)
  {
    RunConcat(l, "\"" + Escape(s), "\"");
    RunConcat(l, "\"", Escape(s));
    assert Run(l, "\"") == l.(inQuote := true);
    RunEscape(l.(inQuote := true), s);
    assert Run(l.(inQuote := true, buf := l.buf + s), "\"") == l.(buf := l.buf + s);
  }

  lemma {:induction false} FirstEquals(tok: string, i: nat)
    requires i < |tok| && tok[i] == '=' && forall j :: 0 <= j < i ==> tok[j] != '='
    ensures EqualsAt(tok) == i
  {
    if i > 0 {
      FirstEquals(tok[1..], i - 1);
    }
  }

  /** A "NAME=value" token gives the argument NAME the value, whatever the value holds. */
  lemma ArgOf(name: string, value: string)
    requires '=' !in name
    ensures ArgName(name + "=" + value) == name && ArgValue(name + "=" + value) == value
  {
    FirstEquals(name + "=" + value, |name|);
  }

  // ---------------------------------------------------------------- whole lines

  /** An argument the tokenizer gives back as it was: its name is plain and free of '=', and its
      value is plain or quoted. */
  predicate Sendable(f: Field) {
    f.name != "" && Plain(f.name) && '=' !in f.name && (f.Flag? || f.quoted || Plain(f.value))
  }

  function Token(f: Field): string { if f.Flag? then f.name else f.name + "=" + f.value }

  /** Outside quotes and escapes, a piece adds its token to what is being built. */
  lemma RunPiece(l: Lexer, f: Field)
    requires Sendable(f) && !l.inQuote && !l.escaped
    ensures Run(l, Piece(f)) == l.(buf := l.buf + Token(f))
  {
    var name := f.name + "=";
    if f.Flag? {
      RunPlain(l, f.name);
    } else if f.quoted {
      RunPlain(l, name);
      RunConcat(l, name, Quote(f.value));
      RunQuote(l.(buf := l.buf + name), f.value);
      assert (l.buf + name) + f.value == l.buf + Token(f);
    } else {
      RunPlain(l, Piece(f));
    }
  }

  lemma PieceIsOneToken(f: Field)
    requires Sendable(f)
    ensures Tokens(Piece(f)) == [Token(f)] && EndsClean(Piece(f))
  {
    RunPiece(Begin, f);
    assert "" + Token(f) == Token(f);
  }

  function LineTokens(cmd: string, fields: seq<Field>): (toks: seq<string>)
    ensures |toks| == 1 + |fields| && toks[0] == cmd
  {
    if fields == [] then [cmd] else LineTokens(cmd, fields[..|fields| - 1]) + [Token(fields[|fields| - 1])]
  }

  lemma {:induction false} LineIsTokens(cmd: string, fields: seq<Field>)
    requires cmd != "" && Plain(cmd) && forall i :: 0 <= i < |fields| ==> Sendable(fields[i])
    ensures Tokens(LineOf(cmd, fields)) == LineTokens(cmd, fields) && EndsClean(LineOf(cmd, fields))
  {
    if fields == [] {
      PlainPiece(cmd);
    } else {
      var init, f := fields[..|fields| - 1], fields[|fields| - 1];
      LineIsTokens(cmd, init);
      PieceIsOneToken(f);
      CleanPieceThenSpace(LineOf(cmd, init), Piece(f));
    }
  }

  /** The argument map a list of fields describes, later ones winning. */
  function FieldMap(fields: seq<Field>): map<string, string> {
    if fields == [] then map[]
    else FieldMap(fields[..|fields| - 1])[fields[|fields| - 1].name := Value(fields[|fields| - 1])]
  }

  lemma {:induction false} NoEquals(tok: string)
    requires '=' !in tok
    ensures EqualsAt(tok) == |tok|
  {
    if tok != "" {
      assert tok[0] in tok && forall c :: c in tok[1..] ==> c in tok;
      NoEquals(tok[1..]);
    }
  }

  lemma ArgsStep(toks: seq<string>, f: Field)
    requires '=' !in f.name
    ensures Args(toks + [Token(f)]) == Args(toks)[f.name := Value(f)]
  {
    if f.Flag? {
      NoEquals(f.name);
      assert f.name[..|f.name|] == f.name;
    } else {
      ArgOf(f.name, f.value);
    }
    assert (toks + [Token(f)])[..|toks|] == toks;
  }

  lemma {:induction false} ArgsOfLine(cmd: string, fields: seq<Field>)
    requires forall i :: 0 <= i < |fields| ==> Sendable(fields[i])
    ensures Args(LineTokens(cmd, fields)[1..]) == FieldMap(fields)
  {
    if fields != [] {
      var init, f := fields[..|fields| - 1], fields[|fields| - 1];
      ArgsOfLine(cmd, init);
      ArgsStep(LineTokens(cmd, init)[1..], f);
      assert LineTokens(cmd, fields)[1..] == LineTokens(cmd, init)[1..] + [Token(f)];
    }
  }

  /** Wire round trip: parsing a line of sendable arguments recovers the command and exactly the
      arguments written. */
  lemma LineRoundTrips(cmd: string, fields: seq<Field>)
    requires cmd != "" && Plain(cmd) && forall i :: 0 <= i < |fields| ==> Sendable(fields[i])
    ensures Parsed(LineOf(cmd, fields)) == Line(cmd, FieldMap(fields))
  {
    LineIsTokens(cmd, fields);
    ArgsOfLine(cmd, fields);
  }

  /** A flag anywhere on a line reads back as an argument of empty value, unless a later argument of
      the same name gives it one. */
  lemma FlagReadsBack(cmd: string, before: seq<Field>, flag: string, after: seq<Field>)
    requires var fields := before + [Flag(flag)] + after;
             && cmd != "" && Plain(cmd) && forall i :: 0 <= i < |fields| ==> Sendable(fields[i])
    requires forall i :: 0 <= i < |after| ==> after[i].name != flag
    ensures Lookup(Parsed(LineOf(cmd, before + [Flag(flag)] + after)).args, flag) == Some("")
  {
    LineRoundTrips(cmd, before + [Flag(flag)] + after);
    FlagInMap(before, flag, after);
  }

  lemma {:induction false} FlagInMap(before: seq<Field>, flag: string, after: seq<Field>)
    requires forall i :: 0 <= i < |after| ==> after[i].name != flag
    ensures Lookup(FieldMap(before + [Flag(flag)] + after), flag) == Some("")
  {
    var fields := before + [Flag(flag)] + after;
    if after == [] {
      assert fields == before + [Flag(flag)] && fields[..|fields| - 1] == before;
    } else {
      assert fields[..|fields| - 1] == before + [Flag(flag)] + after[..|after| - 1];
      FlagInMap(before, flag, after[..|after| - 1]);
    }
  }

  /** A device id as the configuration accepts it. */
  predicate ValidDeviceId(id: string) {
    forall c :: c in id ==> c != ' ' && c != '\t' && c != '\r' && c != '\n' && c != '\"' && c != '='
  }

  lemma NumbersArePlain(n: int)
    ensures Plain(Itoa(n))
  {
  }

  lemma {:induction false} FieldMapStep(fields: seq<Field>, f: Field)
    ensures FieldMap(fields + [f]) == FieldMap(fields)[f.name := Value(f)]
  {
    assert (fields + [f])[..|fields|] == fields;
  }

  lemma PressNamesArePlain()
    ensures Plain("KEY-PRESS") && Plain("true") && Plain("false")
    ensures Plain("DEVICEID") && '=' !in "DEVICEID" && Plain("KEY") && '=' !in "KEY"
    ensures Plain("PRESSED") && '=' !in "PRESSED"
  {
  }

  lemma RegisterNamesArePlain()
    ensures Plain("ADD-DEVICE") && Plain("hex") && Plain("PRODUCT_NAME") && '=' !in "PRODUCT_NAME"
    ensures Plain("KEYS_TOTAL") && '=' !in "KEYS_TOTAL" && Plain("KEYS_PER_ROW") && '=' !in "KEYS_PER_ROW"
    ensures Plain("BITMAPS") && '=' !in "BITMAPS" && Plain("COLORS") && '=' !in "COLORS"
  {
  }

  lemma PressFieldsSendable(id: string, key: int, pressed: bool)
    requires ValidDeviceId(id) && '\\' !in id
    ensures forall i :: 0 <= i < 3 ==> Sendable(PressFields(id, key, pressed)[i])
  {
    NumbersArePlain(key);
    PressNamesArePlain();
  }

  lemma FieldMapOfThree(a: Field, b: Field, c: Field)
    ensures FieldMap([a, b, c]) == map[a.name := Value(a)][b.name := Value(b)][c.name := Value(c)]
  {
    FieldMapStep([], a);
    FieldMapStep([a], b);
    FieldMapStep([a, b], c);
    assert [] + [a] == [a] && [a] + [b] == [a, b] && [a, b] + [c] == [a, b, c];
  }

  /** ... of a key press, for any key and flag; the numbers and flags read back as what was
      pressed. */
  lemma PressRoundTrips(id: string, key: int, pressed: bool)
    requires ValidDeviceId(id) && '\\' !in id
    ensures Parsed(PressLine(id, key, pressed)) ==
            Line("KEY-PRESS", map["DEVICEID" := id]["KEY" := Itoa(key)]["PRESSED" := BoolWire(pressed)])
    ensures Atoi(Itoa(key)) == Some(key) && ParseWireBool(BoolWire(pressed)) == pressed
  {
    ItoaRoundTrips(key);
    PressNamesArePlain();
    PressFieldsSendable(id, key, pressed);
    LineRoundTrips("KEY-PRESS", PressFields(id, key, pressed));
    var fs := PressFields(id, key, pressed);
    FieldMapOfThree(fs[0], fs[1], fs[2]);
  }

  lemma RegisterFieldsSendable(id: string, product: string, keysTotal: int, keysPerRow: int, bitmaps: int)
    requires ValidDeviceId(id) && '\\' !in id
    ensures forall i :: 0 <= i < 6 ==> Sendable(RegisterFields(id, product, keysTotal, keysPerRow, bitmaps)[i])
  {
    NumbersArePlain(keysTotal);
    NumbersArePlain(keysPerRow);
    NumbersArePlain(bitmaps);
    PressNamesArePlain();
    RegisterNamesArePlain();
  }

  lemma FieldMapOfSix(a: Field, b: Field, c: Field, d: Field, e: Field, f: Field)
    ensures FieldMap([a, b, c, d, e, f]) ==
            map[a.name := Value(a)][b.name := Value(b)][c.name := Value(c)][d.name := Value(d)]
               [e.name := Value(e)][f.name := Value(f)]
  {
    FieldMapOfThree(a, b, c);
    FieldMapStep([a, b, c], d);
    FieldMapStep([a, b, c, d], e);
    FieldMapStep([a, b, c, d, e], f);
    assert [a, b, c] + [d] == [a, b, c, d] && [a, b, c, d] + [e] == [a, b, c, d, e];
    assert [a, b, c, d, e] + [f] == [a, b, c, d, e, f];
  }

  /** ... and of the registration, whose product name may hold spaces, quotes and backslashes. */
  lemma RegisterRoundTrips(id: string, product: string, keysTotal: int, keysPerRow: int, bitmaps: int)
    requires ValidDeviceId(id) && '\\' !in id && PrintableAscii(product)
    ensures Parsed(RegisterLine(id, product, keysTotal, keysPerRow, bitmaps)) ==
            Line("ADD-DEVICE", map["DEVICEID" := id]["PRODUCT_NAME" := product]["KEYS_TOTAL" := Itoa(keysTotal)]
                                  ["KEYS_PER_ROW" := Itoa(keysPerRow)]["BITMAPS" := Itoa(bitmaps)]["COLORS" := "hex"])
  {
    RegisterNamesArePlain();
    RegisterFieldsSendable(id, product, keysTotal, keysPerRow, bitmaps);
    var fs := RegisterFields(id, product, keysTotal, keysPerRow, bitmaps);
    LineRoundTrips("ADD-DEVICE", fs);
    FieldMapOfSix(fs[0], fs[1], fs[2], fs[3], fs[4], fs[5]);
    assert fs == [fs[0], fs[1], fs[2], fs[3], fs[4], fs[5]];
  }

  // ---------------------------------------------------------------- ids with backslashes

  /** What the tokenizer makes of a bare value: each backslash gives way to the character after
      it. */
  function Unescaped(s: string): string {
    if s == "" then ""
    else if s[0] != '\\' then [s[0]] + Unescaped(s[1..])
    else if |s| == 1 then ""
    else [s[1]] + Unescaped(s[2..])
  }

  /** The value ends in a backslash that no other backslash escapes. */
  predicate Dangling(s: string) {
    s != "" && if s[0] != '\\' then Dangling(s[1..]) else |s| == 1 || Dangling(s[2..])
  }

  lemma {:induction false} UnescapedShrinks(s: string)
    ensures |Unescaped(s)| <= |s|
    ensures '\\' in s ==> |Unescaped(s)| < |s|
  {
    if s != "" {
      if s[0] != '\\' {
        UnescapedShrinks(s[1..]);
        assert s == [s[0]] + s[1..];
      } else if |s| > 1 {
        UnescapedShrinks(s[2..]);
      }
    }
  }

  /** A pair of a backslash and any character adds that character. */
  lemma RunPair(l: Lexer, c: char, s: string)
    requires !l.escaped
    ensures Run(l, "\\" + [c] + s) == Run(l.(buf := l.buf + [c]), s)
  {
    var t := "\\" + [c] + s;
    assert t[0] == '\\' && t[1..] == [c] + s;
    assert t[1..][0] == c && t[1..][1..] == s;
  }

  lemma {:induction false} RunBare(l: Lexer, s: string)
    requires !l.escaped && forall c :: c in s ==> c != ' ' && c != '\"'
    ensures Run(l, s) == l.(buf := l.buf + Unescaped(s), escaped := Dangling(s))
    decreases s
  {
    if s == "" {
      assert l.buf + "" == l.buf;
    } else if s[0] != '\\' {
      var c, t := s[0], s[1..];
      assert c in s && forall d :: d in t ==> d in s;
      RunBare(l.(buf := l.buf + [c]), t);
      assert (l.buf + [c]) + Unescaped(t) == l.buf + ([c] + Unescaped(t));
    } else if |s| == 1 {
      assert s[1..] == "" && l.buf + "" == l.buf;
    } else {
      var c, t := s[1], s[2..];
      assert forall d :: d in t ==> d in s;
      RunBare(l.(buf := l.buf + [c]), t);
      RunPair(l, c, t);
      assert s == "\\" + [c] + t;
      assert (l.buf + [c]) + Unescaped(t) == l.buf + ([c] + Unescaped(t));
    }
  }

  /** The tokenizer after "name=id". */
  lemma RunNamedId(name: string, id: string)
    requires Plain(name) && ValidDeviceId(id)
    ensures Run(Begin, name + id) == Lexer([], name + Unescaped(id), false, Dangling(id))
  {
    RunPlain(Begin, name);
    assert "" + name == name;
    RunConcat(Begin, name, id);
    RunBare(Begin.(buf := name), id);
  }

  /** When the id's last backslash escapes the space behind the id, the next piece continues the
      token. */
  lemma RunDanglingId(name: string, id: string, next: Field)
    requires Plain(name) && ValidDeviceId(id) && Dangling(id) && Sendable(next)
    ensures Run(Begin, name + id + " " + Piece(next)) ==
            Lexer([], name + (Unescaped(id) + " " + Token(next)), false, false)
  {
    var u := Unescaped(id);
    RunNamedId(name, id);
    RunConcat(Begin, name + id + " ", Piece(next));
    RunConcat(Begin, name + id, " ");
    assert Run(Lexer([], name + u, false, true), " ") == Step(Lexer([], name + u, false, true), ' ');
    RunPiece(Lexer([], name + u + " ", false, false), next);
    assert name + u + " " + Token(next) == name + (u + " " + Token(next));
  }

  /** A clean prefix of a line that already gave the id `u`: further arguments of other names do
      not change it. */
  lemma IdStays(line: string, u: string, f: Field)
    requires EndsClean(line) && Tokens(line) != []
    requires Lookup(Args(Tokens(line)[1..]), "DEVICEID") == Some(u)
    requires Sendable(f) && f.name != "DEVICEID"
    ensures var more := line + " " + Piece(f);
            EndsClean(more) && Tokens(more) != [] && Lookup(Args(Tokens(more)[1..]), "DEVICEID") == Some(u)
  {
    PieceIsOneToken(f);
    CleanPieceThenSpace(line, Piece(f));
    ArgsKeep(Tokens(line), u, f);
  }

  lemma ArgsKeep(toks: seq<string>, u: string, f: Field)
    requires toks != [] && Lookup(Args(toks[1..]), "DEVICEID") == Some(u) && '=' !in f.name && f.name != "DEVICEID"
    ensures Lookup(Args((toks + [Token(f)])[1..]), "DEVICEID") == Some(u)
  {
    ArgsStep(toks[1..], f);
    assert (toks + [Token(f)])[1..] == toks[1..] + [Token(f)];
  }

  lemma IdRead(cmd: string, piece: string, u: string)
    requires Plain(cmd) && cmd != "" && Plain("DEVICEID") && '=' !in "DEVICEID"
    requires Run(Begin, piece) == Lexer([], "DEVICEID" + "=" + u, false, false)
    ensures var line := cmd + " " + piece;
            EndsClean(line) && Tokens(line) != [] && Lookup(Args(Tokens(line)[1..]), "DEVICEID") == Some(u)
  {
    PlainPiece(cmd);
    CleanPieceThenSpace(cmd, piece);
    var tok := "DEVICEID" + "=" + u;
    assert tok != "" && Tokens(piece) == [] + [tok];
    ArgsStep([], Field("DEVICEID", u, false));
    assert ([cmd] + [tok])[1..] == [] + [tok];
  }

  /** A line and further pieces. */
  function Continued(line: string, fields: seq<Field>): string {
    if fields == [] then line
    else Continued(line, fields[..|fields| - 1]) + " " + Piece(fields[|fields| - 1])
  }

  /** Arguments that the tokenizer gives back as they were and that are not the id. */
  predicate Others(fields: seq<Field>) {
    forall i :: 0 <= i < |fields| ==> Sendable(fields[i]) && fields[i].name != "DEVICEID"
  }

  lemma {:induction false} IdStaysThroughout(line: string, u: string, fields: seq<Field>)
    requires EndsClean(line) && Tokens(line) != [] && Others(fields)
    requires Lookup(Args(Tokens(line)[1..]), "DEVICEID") == Some(u)
    ensures var more := Continued(line, fields);
            EndsClean(more) && Tokens(more) != [] && Lookup(Args(Tokens(more)[1..]), "DEVICEID") == Some(u)
  {
    if fields != [] {
      IdStaysThroughout(line, u, fields[..|fields| - 1]);
      IdStays(Continued(line, fields[..|fields| - 1]), u, fields[|fields| - 1]);
    }
  }

  lemma DroppingLast(f: Field, rest: seq<Field>)
    requires rest != []
    ensures ([f] + rest)[..|rest|] == [f] + rest[..|rest| - 1] && ([f] + rest)[|rest|] == rest[|rest| - 1]
  {
  }

  lemma {:induction false} LineContinues(cmd: string, first: Field, rest: seq<Field>)
    ensures LineOf(cmd, [first] + rest) == Continued(cmd + " " + Piece(first), rest)
  {
    if rest == [] {
      assert [first] + rest == [first] && [first][..0] == [];
    } else {
      DroppingLast(first, rest);
      LineContinues(cmd, first, rest[..|rest| - 1]);
    }
  }

  lemma {:induction false} ContinuedInTwo(line: string, next: Field, rest: seq<Field>)
    ensures Continued(line, [next] + rest) == Continued(line + " " + Piece(next), rest)
  {
    if rest == [] {
      assert [next] + rest == [next] && [next][..0] == [];
    } else {
      DroppingLast(next, rest);
      ContinuedInTwo(line, next, rest[..|rest| - 1]);
    }
  }

  /** What a device id reads back as when `next` is the argument behind it: its escaping
      backslashes are gone, and when the last one escaped the space behind the id, the next
      argument is part of it. */
  function ReadId(id: string, next: Field): string {
    if Dangling(id) then Unescaped(id) + " " + Token(next) else Unescaped(id)
  }

  lemma CleanIdRead(cmd: string, id: string, rest: seq<Field>)
    requires Plain(cmd) && cmd != "" && Plain("DEVICEID") && '=' !in "DEVICEID"
    requires ValidDeviceId(id) && !Dangling(id) && Others(rest)
    ensures Lookup(Parsed(Continued(cmd + " " + ("DEVICEID" + "=" + id), rest)).args, "DEVICEID") == Some(Unescaped(id))
  {
    var piece := "DEVICEID" + "=" + id;
    RunNamedId("DEVICEID" + "=", id);
    IdRead(cmd, piece, Unescaped(id));
    IdStaysThroughout(cmd + " " + piece, Unescaped(id), rest);
  }

  lemma DanglingIdRead(cmd: string, id: string, next: Field, rest: seq<Field>)
    requires Plain(cmd) && cmd != "" && Plain("DEVICEID") && '=' !in "DEVICEID"
    requires ValidDeviceId(id) && Dangling(id) && Sendable(next) && Others(rest)
    ensures Lookup(Parsed(Continued(cmd + " " + ("DEVICEID" + "=" + id + " " + Piece(next)), rest)).args, "DEVICEID")
            == Some(Unescaped(id) + " " + Token(next))
  {
    var piece, u := "DEVICEID" + "=" + id + " " + Piece(next), Unescaped(id) + " " + Token(next);
    RunDanglingId("DEVICEID" + "=", id, next);
    IdRead(cmd, piece, u);
    IdStaysThroughout(cmd + " " + piece, u, rest);
  }

  lemma LineReadsId(cmd: string, id: string, next: Field, rest: seq<Field>)
    requires Plain(cmd) && cmd != "" && Plain("DEVICEID") && '=' !in "DEVICEID"
    requires ValidDeviceId(id) && Others([next] + rest)
    ensures var line := LineOf(cmd, [Field("DEVICEID", id, false)] + ([next] + rest));
            Lookup(Parsed(line).args, "DEVICEID") == Some(ReadId(id, next))
  {
    LineContinues(cmd, Field("DEVICEID", id, false), [next] + rest);
    if Dangling(id) {
      OthersSplit(next, rest);
      DanglingIdRead(cmd, id, next, rest);
      ContinuedInTwo(cmd + " " + ("DEVICEID" + "=" + id), next, rest);
      Regroup(cmd, "DEVICEID" + "=" + id, Piece(next));
    } else {
      CleanIdRead(cmd, id, [next] + rest);
    }
  }

  lemma Regroup(a: string, b: string, c: string)
    ensures a + " " + b + " " + c == a + " " + (b + " " + c)
  {
  }

  lemma OthersSplit(next: Field, rest: seq<Field>)
    requires Others([next] + rest)
    ensures Sendable(next) && Others(rest)
  {
    assert ([next] + rest)[0] == next;
    forall i | 0 <= i < |rest| ensures Sendable(rest[i]) && rest[i].name != "DEVICEID" {
      assert ([next] + rest)[i + 1] == rest[i];
    }
  }

  /** The id of a key press, as it reads back. */
  lemma IdReadBack(id: string, key: int, pressed: bool)
    requires ValidDeviceId(id)
    ensures Lookup(Parsed(PressLine(id, key, pressed)).args, "DEVICEID") ==
            Some(ReadId(id, Field("KEY", Itoa(key), false)))
  {
    var a, b := Field("DEVICEID", id, false), Field("KEY", Itoa(key), false);
    var c := Field("PRESSED", BoolWire(pressed), false);
    PressNamesArePlain();
    NumbersArePlain(key);
    LineReadsId("KEY-PRESS", id, b, [c]);
    assert [a] + ([b] + [c]) == PressFields(id, key, pressed);
  }

  /** The id of the registration, as it reads back. */
  lemma RegisteredIdReadBack(id: string, product: string, keysTotal: int, keysPerRow: int, bitmaps: int)
    requires ValidDeviceId(id)
    ensures Lookup(Parsed(RegisterLine(id, product, keysTotal, keysPerRow, bitmaps)).args, "DEVICEID") ==
            Some(ReadId(id, Field("PRODUCT_NAME", product, true)))
  {
    var fs := RegisterFields(id, product, keysTotal, keysPerRow, bitmaps);
    RegisterOthers(id, product, keysTotal, keysPerRow, bitmaps);
    PressNamesArePlain();
    RegisterNamesArePlain();
    LineReadsId("ADD-DEVICE", id, fs[1], fs[2..]);
    assert [fs[1]] + fs[2..] == fs[1..];
    assert fs == [fs[0]] + fs[1..];
  }

  lemma RegisterOthers(id: string, product: string, keysTotal: int, keysPerRow: int, bitmaps: int)
    ensures Others(RegisterFields(id, product, keysTotal, keysPerRow, bitmaps)[1..])
  {
    NumbersArePlain(keysTotal);
    NumbersArePlain(keysPerRow);
    NumbersArePlain(bitmaps);
    RegisterNamesArePlain();
  }

  /** Companion sees presses of the device that was registered exactly when no backslash of the id
      escapes the space behind it: any other backslash is lost alike on both lines. */
  lemma PressesReachTheRegisteredDeviceExactly(id: string, key: int, pressed: bool, product: string,
                                               keysTotal: int, keysPerRow: int, bitmaps: int)
    requires ValidDeviceId(id)
    ensures Lookup(Parsed(PressLine(id, key, pressed)).args, "DEVICEID") ==
            Lookup(Parsed(RegisterLine(id, product, keysTotal, keysPerRow, bitmaps)).args, "DEVICEID")
            <==> !Dangling(id)
  {
    IdReadBack(id, key, pressed);
    RegisteredIdReadBack(id, product, keysTotal, keysPerRow, bitmaps);
    TokensDiffer(Unescaped(id), Itoa(key), product);
  }

  lemma TokensDiffer(u: string, n: string, product: string)
    ensures u + " " + Token(Field("KEY", n, false)) != u + " " + Token(Field("PRODUCT_NAME", product, true))
  {
    var a, b := u + " " + Token(Field("KEY", n, false)), u + " " + Token(Field("PRODUCT_NAME", product, true));
    assert a[|u| + 1] == 'K' && b[|u| + 1] == 'P';
  }

  lemma {:induction false} NothingToUnescape(s: string)
    requires '\\' !in s
    ensures Unescaped(s) == s && !Dangling(s)
  {
    if s != "" {
      assert s[0] in s && forall c :: c in s[1..] ==> c in s;
      NothingToUnescape(s[1..]);
    }
  }

  /** A valid device id survives a key press exactly when it holds no backslash. */
  lemma PressRecoversIdExactly(id: string, key: int, pressed: bool)
    requires ValidDeviceId(id)
    ensures Lookup(Parsed(PressLine(id, key, pressed)).args, "DEVICEID") == Some(id) <==> '\\' !in id
  {
    IdReadBack(id, key, pressed);
    if '\\' in id {
      UnescapedShrinks(id);
      if Dangling(id) {
        SpaceInside(Unescaped(id), Token(Field("KEY", Itoa(key), false)));
      }
    } else {
      NothingToUnescape(id);
    }
  }

  lemma SpaceInside(a: string, b: string)
    ensures ' ' in a + " " + b
  {
    assert (a + " " + b)[|a|] == ' ';
  }
}
