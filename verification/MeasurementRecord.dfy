/** The measurement record: printed by the engine, scanned by the server and split
    by the display. */
module MeasurementRecord {
  import opened Wrappers

  // ----------------------------------------------------------------------- text

  predicate IsSpace(c: char) {
    c == ' ' || c == '\t' || c == '\n' || c == '\r' || c == 11 as char || c == 12 as char
  }

  predicate IsLetter(c: char) {
    'a' <= c <= 'z' || 'A' <= c <= 'Z'
  }

  predicate IsWord(c: char) {
    IsLetter(c) || '0' <= c <= '9' || c == '_'
  }

  function TrimLeft(s: string): string {
    if s != "" && IsSpace(s[0]) then TrimLeft(s[1..]) else s
  }

  function TrimRight(s: string): (r: string)
    ensures |r| <= |s|
    ensures forall i :: 0 <= i < |r| ==> r[i] == s[i]
  {
    if s != "" && IsSpace(s[|s| - 1]) then TrimRight(s[..|s| - 1]) else s
  }

  function Trim(s: string): string {
    TrimLeft(TrimRight(s))
  }

  /** The length of the longest start that is free of commas. */
  function ValueSpan(s: string): (n: nat)
    ensures n <= |s|
    ensures forall i :: 0 <= i < n ==> s[i] != ','
    ensures n < |s| ==> s[n] == ','
  {
    if s == "" || s[0] == ',' then 0 else 1 + ValueSpan(s[1..])
  }

  function WordSpan(s: string): (n: nat)
    ensures n <= |s|
  {
    if s == "" || !IsWord(s[0]) then 0 else 1 + WordSpan(s[1..])
  }

  function SpaceSpan(s: string): (n: nat)
    ensures n <= |s|
  {
    if s == "" || !IsSpace(s[0]) then 0 else 1 + SpaceSpan(s[1..])
  }

  // --------------------------------------------------------------------- printing

  datatype Field = Field(name: string, value: string)

  predicate IsName(s: string) {
    s != "" && IsLetter(s[0]) && forall i :: 0 <= i < |s| ==> IsWord(s[i])
  }

  predicate CommaFree(s: string) {
    forall i :: 0 <= i < |s| ==> s[i] != ','
  }

  predicate Printable(fields: seq<Field>) {
    forall i :: 0 <= i < |fields| ==> IsName(fields[i].name) && CommaFree(fields[i].value)
  }

  function PrintField(f: Field): string {
    f.name + "=" + f.value
  }

  function PrintTail(fields: seq<Field>): string {
    if fields == [] then "" else "," + PrintField(fields[0]) + PrintTail(fields[1..])
  }

  function Print(fields: seq<Field>): string
    requires fields != []
  {
    PrintField(fields[0]) + PrintTail(fields[1..])
  }

  // --------------------------------------------------------------------- scanning

  datatype Match = Match(field: Field, rest: string)

  /** The field pattern after its leading separator: blanks, a name, an equals sign
      and everything up to the next comma. */
  function MatchBody(s: string): (m: Option<Match>)
    ensures m.Some? ==> |m.value.rest| < |s|
  {
    var t := s[SpaceSpan(s)..];
    if t == "" || !IsLetter(t[0]) then None
    else
      var n := WordSpan(t);
      if n == 0 || n == |t| || t[n] != '=' then None
      else
        var u := t[n + 1..];
        Some(Match(Field(t[..n], u[..ValueSpan(u)]), u[ValueSpan(u)..]))
  }

  /** Every match of the field pattern, from the left; a field begins at the very
      start or after a comma. */
  function Scan(s: string, atStart: bool): seq<Field>
    decreases |s|, if atStart then 1 else 0
  {
    if atStart && MatchBody(s).Some? then
      [MatchBody(s).value.field] + Scan(MatchBody(s).value.rest, false)
    else if s == "" then []
    else if s[0] == ',' && MatchBody(s[1..]).Some? then
      [MatchBody(s[1..]).value.field] + Scan(MatchBody(s[1..]).value.rest, false)
    else Scan(s[1..], false)
  }

  const PREFIX := "Data from C-server:"

  predicate StartsWith(s: string, prefix: string) {
    |prefix| <= |s| && s[..|prefix|] == prefix
  }

  function AfterColon(s: string): string {
    if s == "" then "" else if s[0] == ':' then s[1..] else AfterColon(s[1..])
  }

  function Unwrap(record: string): string {
    var raw := Trim(record);
    if StartsWith(raw, PREFIX) then Trim(AfterColon(raw)) else raw
  }

  /** Names to trimmed values; a later field of the same name wins. */
  function ToMap(fields: seq<Field>): map<string, string> {
    if fields == [] then map[]
    else ToMap(fields[..|fields| - 1])[fields[|fields| - 1].name := Trim(fields[|fields| - 1].value)]
  }

  function ParseRecord(record: string): map<string, string> {
    ToMap(Scan(Unwrap(record), true))
  }

  // ------------------------------------------------------------------- round trip

  lemma {:induction false} WordSpanOf(name: string, rest: string)
    requires forall i :: 0 <= i < |name| ==> IsWord(name[i])
    requires rest != "" && !IsWord(rest[0])
    ensures WordSpan(name + rest) == |name|
  {
    if name == "" {
      assert name + rest == rest;
    } else {
      assert (name + rest)[1..] == name[1..] + rest;
      WordSpanOf(name[1..], rest);
    }
  }

  lemma {:induction false} ValueSpanOf(value: string, rest: string)
    requires CommaFree(value) && (rest == "" || rest[0] == ',')
    ensures ValueSpan(value + rest) == |value|
  {
    if value == "" {
      assert value + rest == rest;
    } else {
      assert (value + rest)[1..] == value[1..] + rest;
      ValueSpanOf(value[1..], rest);
    }
  }

  /** A printed field is matched whole. */
  lemma MatchesField(f: Field, rest: string)
    requires IsName(f.name) && CommaFree(f.value) && (rest == "" || rest[0] == ',')
    ensures MatchBody(PrintField(f) + rest) == Some(Match(f, rest))
  {
    var s, after := PrintField(f) + rest, "=" + f.value + rest;
    assert s == f.name + after;
    assert s[0] == f.name[0];
    assert SpaceSpan(s) == 0 && s[0..] == s;
    WordSpanOf(f.name, after);
    assert s[..|f.name|] == f.name && s[|f.name| + 1..] == f.value + rest;
    ValueSpanOf(f.value, rest);
  }

  lemma ScanComma(s: string)
    requires s != "" && s[0] == ',' && MatchBody(s[1..]).Some?
    ensures Scan(s, false) == [MatchBody(s[1..]).value.field] + Scan(MatchBody(s[1..]).value.rest, false)
  {}

  lemma ScanStep(f: Field, rest: string)
    requires IsName(f.name) && CommaFree(f.value) && (rest == "" || rest[0] == ',')
    ensures Scan("," + PrintField(f) + rest, false) == [f] + Scan(rest, false)
  {
    var s := "," + PrintField(f) + rest;
    assert s[1..] == PrintField(f) + rest;
    MatchesField(f, rest);
    assert s[0] == ',' && MatchBody(s[1..]) == Some(Match(f, rest));
    ScanComma(s);
  }

  lemma {:induction false} ScanTail(fields: seq<Field>)
    requires Printable(fields)
    ensures Scan(PrintTail(fields), false) == fields
  {
    if fields != [] {
      ScanStep(fields[0], PrintTail(fields[1..]));
      ScanTail(fields[1..]);
      assert fields == [fields[0]] + fields[1..];
    }
  }

  /** Scanning what was printed gives back the fields. */
  lemma ScanPrinted(fields: seq<Field>)
    requires fields != [] && Printable(fields)
    ensures Scan(Print(fields), true) == fields
  {
    MatchesField(fields[0], PrintTail(fields[1..]));
    ScanTail(fields[1..]);
  }

  lemma {:induction false} TrimRightKeeps(s: string, v: string)
    requires s != "" && !IsSpace(s[|s| - 1])
    ensures TrimRight(s + v) == s + TrimRight(v)
    decreases |v|
  {
    if v == "" {
      assert s + v == s;
    } else if IsSpace(v[|v| - 1]) {
      assert (s + v)[..|s + v| - 1] == s + v[..|v| - 1];
      TrimRightKeeps(s, v[..|v| - 1]);
    }
  }

  /** The fields with the last value trimmed on the right. */
  function TrimLast(fields: seq<Field>): seq<Field>
    requires fields != []
  {
    var last := fields[|fields| - 1];
    fields[|fields| - 1 := last.(value := TrimRight(last.value))]
  }

  /** What comes before the last value. */
  function BeforeLast(fields: seq<Field>): string
    requires fields != []
  {
    if |fields| == 1 then fields[0].name + "=" else PrintField(fields[0]) + "," + BeforeLast(fields[1..])
  }

  lemma {:induction false} PrintIsBeforeLast(fields: seq<Field>)
    requires fields != []
    ensures Print(fields) == BeforeLast(fields) + fields[|fields| - 1].value
    ensures |BeforeLast(fields)| > 0 && BeforeLast(fields)[|BeforeLast(fields)| - 1] == '='
  {
    if |fields| > 1 {
      PrintIsBeforeLast(fields[1..]);
      assert Print(fields) == PrintField(fields[0]) + "," + Print(fields[1..]);
    }
  }

  lemma {:induction false} BeforeLastIgnoresLast(fields: seq<Field>, value: string)
    requires fields != []
    ensures var other := fields[|fields| - 1 := fields[|fields| - 1].(value := value)];
            BeforeLast(other) == BeforeLast(fields)
  {
    var other := fields[|fields| - 1 := fields[|fields| - 1].(value := value)];
    if |fields| > 1 {
      BeforeLastIgnoresLast(fields[1..], value);
      assert other[1..] == fields[1..][|fields| - 2 := fields[|fields| - 1].(value := value)];
    }
  }

  /** Trimming a printed record trims its last value on the right. */
  lemma TrimPrinted(fields: seq<Field>)
    requires fields != [] && Printable(fields)
    ensures TrimRight(Print(fields)) == Print(TrimLast(fields))
    ensures Trim(Print(fields)) == Print(TrimLast(fields))
    ensures Printable(TrimLast(fields)) && TrimRight(Print(TrimLast(fields))) == Print(TrimLast(fields))
  {
    var last := fields[|fields| - 1].value;
    PrintIsBeforeLast(fields);
    PrintIsBeforeLast(TrimLast(fields));
    BeforeLastIgnoresLast(fields, TrimRight(last));
    TrimRightKeeps(BeforeLast(fields), last);
    TrimRightKeeps(BeforeLast(fields), TrimRight(last));
    TrimRightOnce(last);
    FirstIsLetter(TrimLast(fields));
  }

  lemma {:induction false} TrimRightOnce(s: string)
    ensures TrimRight(TrimRight(s)) == TrimRight(s)
  {
    if s != "" && IsSpace(s[|s| - 1]) { TrimRightOnce(s[..|s| - 1]); }
  }

  lemma FirstIsLetter(fields: seq<Field>)
    requires fields != [] && Printable(fields)
    ensures Print(fields) != "" && Print(fields)[0] == fields[0].name[0] && !IsSpace(Print(fields)[0])
  {}

  lemma {:induction false} MapOf(fields: seq<Field>, i: nat)
    requires i < |fields|
    requires forall j, k :: 0 <= j < k < |fields| ==> fields[j].name != fields[k].name
    ensures fields[i].name in ToMap(fields) && ToMap(fields)[fields[i].name] == Trim(fields[i].value)
    decreases |fields|
  {
    if i < |fields| - 1 { MapOf(fields[..|fields| - 1], i); }
  }

  lemma {:induction false} MapHasOnly(fields: seq<Field>, name: string)
    ensures name in ToMap(fields) ==> exists i :: 0 <= i < |fields| && fields[i].name == name
    decreases |fields|
  {
    if fields != [] {
      var front := fields[..|fields| - 1];
      MapHasOnly(front, name);
      if name in ToMap(front) {
        var i :| 0 <= i < |front| && front[i].name == name;
        assert fields[i].name == name;
      }
    }
  }

  /** The printed names, and nothing else, with the printed values up to trimming. */
  ghost predicate Recovers(m: map<string, string>, fields: seq<Field>) {
    && (forall i :: 0 <= i < |fields| ==> fields[i].name in m && m[fields[i].name] == Trim(fields[i].value))
    && (forall name :: name in m ==> exists i :: 0 <= i < |fields| && fields[i].name == name)
  }

  lemma MapRecovers(fields: seq<Field>)
    requires forall j, k :: 0 <= j < k < |fields| ==> fields[j].name != fields[k].name
    ensures Recovers(ToMap(fields), fields)
  {
    forall i | 0 <= i < |fields|
      ensures fields[i].name in ToMap(fields) && ToMap(fields)[fields[i].name] == Trim(fields[i].value)
    {
      MapOf(fields, i);
    }
    forall name | name in ToMap(fields) ensures exists i :: 0 <= i < |fields| && fields[i].name == name {
      MapHasOnly(fields, name);
    }
  }

  /** Trimming a value twice is trimming it once. */
  lemma SameUpToTrim(m: map<string, string>, fields: seq<Field>)
    requires fields != [] && Recovers(m, TrimLast(fields))
    ensures Recovers(m, fields)
  {
    var trimmed := TrimLast(fields);
    TrimRightOnce(fields[|fields| - 1].value);
    forall i | 0 <= i < |fields| ensures fields[i].name in m && m[fields[i].name] == Trim(fields[i].value) {
      assert trimmed[i].name == fields[i].name && Trim(trimmed[i].value) == Trim(fields[i].value);
    }
    forall name | name in m ensures exists i :: 0 <= i < |fields| && fields[i].name == name {
      var i :| 0 <= i < |trimmed| && trimmed[i].name == name;
      assert fields[i].name == name;
    }
  }

  predicate AllSpace(s: string) {
    forall i :: 0 <= i < |s| ==> IsSpace(s[i])
  }

  lemma {:induction false} TrimLeftSkips(blanks: string, s: string)
    requires AllSpace(blanks) && s != "" && !IsSpace(s[0])
    ensures TrimLeft(blanks + s) == s
  {
    if blanks == "" {
      assert blanks + s == s;
    } else {
      assert (blanks + s)[1..] == blanks[1..] + s;
      TrimLeftSkips(blanks[1..], s);
    }
  }

  lemma {:induction false} AfterColonOf(s: string, rest: string)
    requires forall i :: 0 <= i < |s| ==> s[i] != ':'
    ensures AfterColon(s + ":" + rest) == rest
  {
    if s == "" {
      assert s + ":" + rest == ":" + rest;
    } else {
      assert (s + ":" + rest)[1..] == s[1..] + ":" + rest;
      AfterColonOf(s[1..], rest);
    }
  }

  lemma NotPrefixed(s: string)
    requires s != "" && s[0] != 'D'
    ensures !StartsWith(s, PREFIX)
  {
    if |PREFIX| <= |s| {
      assert PREFIX[0] == 'D' && s[..|PREFIX|][0] == s[0];
    }
  }

  /** With or without the prefix, what is left is the printed record. */
  lemma UnwrapPrinted(fields: seq<Field>, blanks: string)
    requires fields != [] && Printable(fields) && fields[0].name[0] != 'D' && AllSpace(blanks)
    ensures Unwrap(Print(fields)) == Print(TrimLast(fields))
    ensures Unwrap(PREFIX + blanks + Print(fields)) == Print(TrimLast(fields))
  {
    var trimmed := Print(TrimLast(fields));
    TrimPrinted(fields);
    FirstIsLetter(fields);
    FirstIsLetter(TrimLast(fields));
    NotPrefixed(trimmed);
    UnwrapPrefixed(fields, blanks);
  }

  lemma TrimWithFront(front: string, fields: seq<Field>)
    requires fields != [] && Printable(fields)
    ensures TrimRight(front + Print(fields)) == front + Print(TrimLast(fields))
  {
    var last := fields[|fields| - 1].value;
    PrintIsBeforeLast(fields);
    PrintIsBeforeLast(TrimLast(fields));
    BeforeLastIgnoresLast(fields, TrimRight(last));
    TrimRightKeeps(front + BeforeLast(fields), last);
    assert front + Print(fields) == (front + BeforeLast(fields)) + last;
  }

  lemma AfterPrefix(s: string)
    ensures StartsWith(PREFIX + s, PREFIX) && AfterColon(PREFIX + s) == s && TrimLeft(PREFIX + s) == PREFIX + s
  {
    assert PREFIX + s == "Data from C-server" + ":" + s;
    AfterColonOf("Data from C-server", s);
    assert (PREFIX + s)[0] == 'D';
  }

  lemma UnwrapPrefixed(fields: seq<Field>, blanks: string)
    requires fields != [] && Printable(fields) && AllSpace(blanks)
    ensures Unwrap(PREFIX + blanks + Print(fields)) == Print(TrimLast(fields))
  {
    var trimmed := Print(TrimLast(fields));
    var raw := PREFIX + blanks + trimmed;
    TrimWithFront(PREFIX + blanks, fields);
    TrimPrinted(fields);
    assert raw == PREFIX + (blanks + trimmed);
    AfterPrefix(blanks + trimmed);
    assert Trim(PREFIX + blanks + Print(fields)) == raw;
    TrimWithFront(blanks, TrimLast(fields));
    TrimLastOnce(fields);
    FirstIsLetter(TrimLast(fields));
    TrimLeftSkips(blanks, trimmed);
  }

  lemma TrimLastOnce(fields: seq<Field>)
    requires fields != []
    ensures TrimLast(TrimLast(fields)) == TrimLast(fields)
  {
    TrimRightOnce(fields[|fields| - 1].value);
  }

  // -------------------------------------------------------------- the real record

  const NAMES := ["Res", "Cap", "Th", "Mag", "Phase", "Phase2", "PhaseRX", "I", "Q", "latched", "LatchStamp", "Alarm",
                  "AlarmReason"]

  function RecordOf(values: seq<string>): (fields: seq<Field>)
    requires |values| == |NAMES|
    ensures |fields| == |NAMES|
    ensures forall i :: 0 <= i < |NAMES| ==> fields[i] == Field(NAMES[i], values[i])
  {
    seq(|NAMES|, i requires 0 <= i < |NAMES| => Field(NAMES[i], values[i]))
  }

  lemma NamesAreNames()
    ensures forall i :: 0 <= i < |NAMES| ==> IsName(NAMES[i])
    ensures forall j, k :: 0 <= j < k < |NAMES| ==> NAMES[j] != NAMES[k]
  {
    assert |NAMES| == 13;
    assert NAMES[3][0] == 'M' && NAMES[0][0] == 'R';
    assert |NAMES[4]| == 5 && |NAMES[5]| == 6 && |NAMES[6]| == 7 && |NAMES[7]| == 1 && |NAMES[8]| == 1 && |NAMES[9]| == 7;
    assert NAMES[0][0] == 'R' && NAMES[1][0] == 'C' && NAMES[2][0] == 'T' && NAMES[6][0] == 'P' && NAMES[9][0] == 'l';
    assert NAMES[7][0] == 'I' && NAMES[8][0] == 'Q';
    assert |NAMES[10]| == 10 && |NAMES[11]| == 5 && |NAMES[12]| == 11 && NAMES[11][0] == 'A' && NAMES[4][0] == 'P';
    assert |NAMES[0]| == 3 && |NAMES[1]| == 3 && |NAMES[2]| == 2 && |NAMES[3]| == 3;
  }

  lemma RecordIsPrintable(values: seq<string>)
    requires |values| == |NAMES| && forall i :: 0 <= i < |values| ==> CommaFree(values[i])
    ensures var fields := RecordOf(values);
            && fields != [] && Printable(fields) && fields[0].name[0] != 'D'
            && forall j, k :: 0 <= j < k < |fields| ==> TrimLast(fields)[j].name != TrimLast(fields)[k].name
  {
    NamesAreNames();
    assert RecordOf(values)[0].name == "Res";
  }

  /** For any comma-free values the server recovers exactly the printed map, with or
      without the prefix and any blanks after it. */
  lemma RecordRoundTrip(values: seq<string>, blanks: string)
    requires |values| == |NAMES| && (forall i :: 0 <= i < |values| ==> CommaFree(values[i])) && AllSpace(blanks)
    ensures Recovers(ParseRecord(Print(RecordOf(values))), RecordOf(values))
    ensures ParseRecord(PREFIX + blanks + Print(RecordOf(values))) == ParseRecord(Print(RecordOf(values)))
  {
    var fields := RecordOf(values);
    RecordIsPrintable(values);
    UnwrapPrinted(fields, blanks);
    TrimPrinted(fields);
    ScanPrinted(TrimLast(fields));
    MapRecovers(TrimLast(fields));
    SameUpToTrim(ParseRecord(Print(fields)), fields);
  }

  // ------------------------------------------------------------------ the display

  /** What `strtok` yields: the runs between commas that are not empty. */
  function Tokens(s: string): seq<string>
    decreases |s|
  {
    if s == "" then []
    else if s[0] == ',' then Tokens(s[1..])
    else [s[..ValueSpan(s)]] + Tokens(s[ValueSpan(s)..])
  }

  const PLACES := 11

  function Place(tokens: seq<string>, i: nat): string {
    if i < |tokens| then tokens[i] else ""
  }

  /** `parseCSV`: the first eleven tokens, filled up with empty text. */
  method ParseCsv(input: string) returns (values: seq<string>)
    ensures |values| == PLACES
    ensures forall i :: 0 <= i < PLACES ==> values[i] == Place(Tokens(input), i)
  {
    values := [];
    var rest := input;
    while rest != "" && |values| < PLACES
      invariant |values| <= PLACES
      invariant Tokens(input) == values + Tokens(rest)
      decreases |rest|
    {
      if rest[0] == ',' {
        rest := rest[1..];
      } else {
        var n := ValueSpan(rest);
        values, rest := values + [rest[..n]], rest[n..];
      }
    }
    while |values| < PLACES
      invariant |values| <= PLACES
      invariant forall i :: 0 <= i < |values| ==> values[i] == Place(Tokens(input), i)
    {
      values := values + [""];
    }
  }

  lemma FieldHasNoComma(f: Field)
    requires IsName(f.name) && CommaFree(f.value)
    ensures CommaFree(PrintField(f)) && PrintField(f) != ""
  {}

  lemma TokensComma(s: string)
    ensures Tokens("," + s) == Tokens(s)
  {
    assert ("," + s)[1..] == s;
  }

  lemma {:induction false} TokensOfTail(fields: seq<Field>)
    requires Printable(fields)
    ensures |Tokens(PrintTail(fields))| == |fields|
    ensures forall i :: 0 <= i < |fields| ==> Tokens(PrintTail(fields))[i] == PrintField(fields[i])
    decreases |fields|, 0
  {
    if fields != [] {
      var rest := PrintTail(fields[1..]);
      assert PrintTail(fields) == "," + (PrintField(fields[0]) + rest);
      TokensComma(PrintField(fields[0]) + rest);
      TokensOfPrinted(fields[0], fields[1..]);
    }
  }

  lemma {:induction false} TokensOfPrinted(f: Field, fields: seq<Field>)
    requires IsName(f.name) && CommaFree(f.value) && Printable(fields)
    ensures Tokens(PrintField(f) + PrintTail(fields)) == [PrintField(f)] + Tokens(PrintTail(fields))
    ensures |Tokens(PrintTail(fields))| == |fields|
    ensures forall i :: 0 <= i < |fields| ==> Tokens(PrintTail(fields))[i] == PrintField(fields[i])
    decreases |fields|, 1
  {
    var s, rest := PrintField(f) + PrintTail(fields), PrintTail(fields);
    FieldHasNoComma(f);
    ValueSpanOf(PrintField(f), rest);
    assert s[..|PrintField(f)|] == PrintField(f) && s[|PrintField(f)|..] == rest;
    TokensOfTail(fields);
  }

  /** The display's eleven places are the first eleven fields as printed, and the
      value after the equals sign is what the server recovers for that name, up to
      trimming. */
  lemma DisplayAgrees(values: seq<string>, i: nat)
    requires |values| == |NAMES| && (forall k :: 0 <= k < |values| ==> CommaFree(values[k])) && i < PLACES
    ensures var record := Print(RecordOf(values));
            && Place(Tokens(record), i) == NAMES[i] + "=" + values[i]
            && NAMES[i] in ParseRecord(record)
            && ParseRecord(record)[NAMES[i]] == Trim(Place(Tokens(record), i)[|NAMES[i]| + 1..])
  {
    var fields := RecordOf(values);
    NamesAreNames();
    assert Printable(fields) && Printable(fields[1..]);
    TokensOfPrinted(fields[0], fields[1..]);
    assert Tokens(Print(fields))[i] == PrintField(fields[i]);
    assert PrintField(fields[i])[|NAMES[i]| + 1..] == values[i];
    RecordRoundTrip(values, "");
    assert Recovers(ParseRecord(Print(fields)), fields);
    assert fields[i].name == NAMES[i];
  }
}
