/** The response-header parser of the API client: the raw header block is cut
    into lines at "\n"; a line with a colon is a field (name before the first
    colon, trimmed value after it); a colon-free line starting with a tab
    continues the previous field (obsolete line folding, section 3.2.4 of
    RFC 7230); a colon-free line before any field is the status line, kept
    under the key "0". */
module HttpHeaders {
  import opened Wrappers
  import opened Strings
  import opened OrderedMaps

  /** A parsed field: one value, or every value of a repeated name. */
  datatype HeaderValue = HStr(s: string) | HList(items: seq<string>)

  type HeaderMap = Entries<HeaderValue>

  /** The parser's variables: the headers so far and the last field name. */
  datatype ParseState = ParseState(headers: HeaderMap, key: string)

  const Init := ParseState([], "")

  /** The value a field gets when one more value v arrives for its name. */
  function AddValue(prev: Option<HeaderValue>, v: string): HeaderValue
  {
    match prev
    case None => HStr(v)
    case Some(HStr(x)) => HList([x, v])
    case Some(HList(xs)) => HList(xs + [v])
  }

  /** The string a field reads as when `.=` appends to it: an unset field
      reads as "", a list as "Array". */
  function AsText(prev: Option<HeaderValue>): string
  {
    match prev
    case None => ""
    case Some(HStr(x)) => x
    case Some(HList(_)) => "Array"
  }

  /** A colon-free line that starts with a tab: a folded continuation. */
  predicate IsFolded(line: string)
  {
    ':' !in line && |line| > 0 && line[0] == '\t'
  }

  /** What a folded line appends to the field it continues. */
  function FoldPiece(line: string): string
  {
    "\r\n\t" + Trim(line)
  }

  /** `! $key` on the last field name. */
  predicate KeyIsFalsy(key: string)
  {
    key == "" || key == "0"
  }

  /** The effect of one line on the parser's variables. */
  function Step(st: ParseState, line: string): ParseState
  {
    match SplitColon(line)
    case Some((name, rest)) =>
      ParseState(Put(st.headers, name, AddValue(Find(st.headers, name), Trim(rest))), name)
    case None =>
      if IsFolded(line) then
        ParseState(Put(st.headers, st.key, HStr(AsText(Find(st.headers, st.key)) + FoldPiece(line))), st.key)
      else if KeyIsFalsy(st.key) then
        ParseState(Put(st.headers, "0", HStr(Trim(line))), st.key)
      else st
  }

  /** The parser's variables after the given lines, in order. */
  function Run(st: ParseState, lines: seq<string>): ParseState
    decreases |lines|
  {
    if lines == [] then st else Run(Step(st, lines[0]), lines[1..])
  }

  /** The header map the parser returns for a raw header block. */
  function ParseHeaders(raw: string): HeaderMap
  {
    Run(Init, Split(raw, '\n')).headers
  }

  /** The parser as the source writes it: a loop over the lines that updates
      the header map and the running field name in place. */
  method HttpParseHeaders(raw: string) returns (headers: HeaderMap)
    ensures headers == ParseHeaders(raw)
    ensures UniqueKeys(headers)
  {
    var lines := Split(raw, '\n');
    headers := [];
    var key := "";
    var i := 0;
    while i < |lines|
      invariant 0 <= i <= |lines|
      invariant Run(ParseState(headers, key), lines[i..]) == Run(Init, lines)
      invariant UniqueKeys(headers)
    {
      assert lines[i..][1..] == lines[i + 1..];
      headers, key := ParseLine(headers, key, lines[i]);
      i := i + 1;
    }
  }

  /** The loop body on one line h. */
  method ParseLine(headers: HeaderMap, key: string, h: string) returns (headers': HeaderMap, key': string)
    ensures ParseState(headers', key') == Step(ParseState(headers, key), h)
    ensures UniqueKeys(headers) ==> UniqueKeys(headers')
  {
    headers', key' := headers, key;
    var parts := SplitColon(h);
    if parts.Some? {
      var name := parts.value.0;
      var v := Trim(parts.value.1);
      var prev := Find(headers, name);
      if prev.None? {
        headers' := Put(headers, name, HStr(v));
      } else if prev.value.HList? {
        headers' := Put(headers, name, HList(prev.value.items + [v]));
      } else {
        headers' := Put(headers, name, HList([prev.value.s, v]));
      }
      key' := name;
    } else if |h| > 0 && h[0] == '\t' {
      var prev := Find(headers, key);
      var text := if prev.None? then "" else if prev.value.HList? then "Array" else prev.value.s;
      headers' := Put(headers, key, HStr(text + ("\r\n\t" + Trim(h))));
    } else if key == "" || key == "0" {
      headers' := Put(headers, "0", HStr(Trim(h)));
    }
  }

  /** Every step keeps the field names distinct. */
  lemma {:induction false} RunUnique(st: ParseState, lines: seq<string>)
    requires UniqueKeys(st.headers)
    ensures UniqueKeys(Run(st, lines).headers)
    decreases |lines|
  {
    if lines != [] {
      RunUnique(Step(st, lines[0]), lines[1..]);
    }
  }

  /** The parsed map never repeats a name. */
  lemma ParseHeadersUnique(raw: string)
    ensures UniqueKeys(ParseHeaders(raw))
  {
    RunUnique(Init, Split(raw, '\n'));
  }

  /** The trimmed values of the fields called name, in arrival order. */
  function ValuesNamed(lines: seq<string>, name: string): (vs: seq<string>)
    ensures |vs| <= |lines|
  {
    if lines == [] then []
    else
      var p := SplitColon(lines[0]);
      (if p.Some? && p.value.0 == name then [Trim(p.value.1)] else []) + ValuesNamed(lines[1..], name)
  }

  /** What a name maps to after the given values arrived for it: nothing,
      one string, or the list of all of them. */
  function Collapse(vs: seq<string>): (r: Option<HeaderValue>)
    ensures r.None? <==> vs == []
    ensures |vs| == 1 ==> r == Some(HStr(vs[0]))
    ensures |vs| >= 2 ==> r == Some(HList(vs))
  {
    if vs == [] then None
    else if |vs| == 1 then Some(HStr(vs[0]))
    else Some(HList(vs))
  }

  /** No line is a folded continuation. */
  predicate NoFolding(lines: seq<string>)
  {
    forall i :: 0 <= i < |lines| ==> !IsFolded(lines[i])
  }

  /** One more value for a name extends what the name collapses to. */
  lemma CollapseAdd(vs: seq<string>, v: string)
    ensures Collapse(vs + [v]) == Some(AddValue(Collapse(vs), v))
  {
    if |vs| == 1 {
      assert vs + [v] == [vs[0], v];
    }
  }

  /** The effect of a line that is not a folded continuation on the value of
      a name other than "0". */
  lemma StepFind(st: ParseState, l: string, name: string)
    requires name != "0" && !IsFolded(l)
    ensures Find(Step(st, l).headers, name) ==
      if SplitColon(l).Some? && SplitColon(l).value.0 == name
      then Some(AddValue(Find(st.headers, name), Trim(SplitColon(l).value.1)))
      else Find(st.headers, name)
  {
  }

  lemma {:induction false} RunAccumulates(st: ParseState, lines: seq<string>, name: string, vs: seq<string>)
    requires name != "0" && NoFolding(lines)
    requires Find(st.headers, name) == Collapse(vs)
    ensures Find(Run(st, lines).headers, name) == Collapse(vs + ValuesNamed(lines, name))
    decreases |lines|
  {
    if lines == [] {
      assert vs + ValuesNamed(lines, name) == vs;
    } else {
      var l := lines[0];
      var next := Step(st, l);
      assert NoFolding(lines[1..]) by {
        forall i | 0 <= i < |lines[1..]| ensures !IsFolded(lines[1..][i]) {
          assert lines[1..][i] == lines[i + 1];
        }
      }
      assert !IsFolded(l);
      var rest := ValuesNamed(lines[1..], name);
      var p := SplitColon(l);
      StepFind(st, l, name);
      if p.Some? && p.value.0 == name {
        var v := Trim(p.value.1);
        assert ValuesNamed(lines, name) == [v] + rest;
        CollapseAdd(vs, v);
        RunAccumulates(next, lines[1..], name, vs + [v]);
        AppendAssociative(vs, [v], rest);
      } else {
        assert ValuesNamed(lines, name) == [] + rest;
        assert Find(next.headers, name) == Collapse(vs);
        RunAccumulates(next, lines[1..], name, vs);
        assert [] + rest == rest;
      }
    }
  }

  /** A name seen once maps to its trimmed value; a name seen several times
      (compared exactly, case included) maps to the list of all its values
      in arrival order. */
  lemma RepeatedNamesAccumulate(raw: string, name: string)
    requires name != "0" && NoFolding(Split(raw, '\n'))
    ensures Find(ParseHeaders(raw), name) == Collapse(ValuesNamed(Split(raw, '\n'), name))
  {
    RunAccumulates(Init, Split(raw, '\n'), name, []);
    assert [] + ValuesNamed(Split(raw, '\n'), name) == ValuesNamed(Split(raw, '\n'), name);
  }

  /** A line "name:value" with a colon-free name is split at its first colon:
      the name is kept as written, the value is trimmed and keeps any further
      colons, and the name becomes the field that folded lines continue. */
  lemma FieldLine(st: ParseState, name: string, value: string)
    requires ':' !in name
    ensures Step(st, name + ":" + value).key == name
    ensures Step(st, name + ":" + value).headers == Put(st.headers, name, AddValue(Find(st.headers, name), Trim(value)))
  {
    SplitColonOf(name, value);
  }

  /** The text a run of folded lines appends to the field they continue. */
  function Folded(cont: seq<string>): string
  {
    if cont == [] then "" else FoldPiece(cont[0]) + Folded(cont[1..])
  }

  lemma StepFolded(st: ParseState, line: string)
    requires IsFolded(line)
    ensures Step(st, line).key == st.key
    ensures Step(st, line).headers == Put(st.headers, st.key, HStr(AsText(Find(st.headers, st.key)) + FoldPiece(line)))
  {
    assert SplitColon(line).None?;
  }

  lemma {:induction false} RunFolds(st: ParseState, cont: seq<string>, x: string)
    requires forall i :: 0 <= i < |cont| ==> IsFolded(cont[i])
    requires Find(st.headers, st.key) == Some(HStr(x))
    ensures Run(st, cont).key == st.key
    ensures Find(Run(st, cont).headers, st.key) == Some(HStr(x + Folded(cont)))
    decreases |cont|
  {
    if cont != [] {
      var next := Step(st, cont[0]);
      StepFolded(st, cont[0]);
      var y := x + FoldPiece(cont[0]);
      assert Find(next.headers, st.key) == Some(HStr(y));
      assert forall i :: 0 <= i < |cont[1..]| ==> IsFolded(cont[1..][i]) by {
        forall i | 0 <= i < |cont[1..]| ensures IsFolded(cont[1..][i]) {
          assert cont[1..][i] == cont[i + 1];
        }
      }
      RunFolds(next, cont[1..], y);
      assert Run(st, cont) == Run(next, cont[1..]);
      AppendAssociative(x, FoldPiece(cont[0]), Folded(cont[1..]));
    } else {
      assert x + Folded(cont) == x;
    }
  }

  /** A field followed by folded continuation lines is one value: the first
      line's trimmed value, then "\r\n\t" and the trimmed text of each
      continuation, provided the name was not seen before. */
  lemma FoldedValue(st: ParseState, name: string, value: string, cont: seq<string>)
    requires ':' !in name && Find(st.headers, name).None?
    requires forall i :: 0 <= i < |cont| ==> IsFolded(cont[i])
    ensures Find(Run(st, [name + ":" + value] + cont).headers, name) == Some(HStr(Trim(value) + Folded(cont)))
  {
    var lines := [name + ":" + value] + cont;
    FieldLine(st, name, value);
    var next := Step(st, lines[0]);
    assert next.key == name && Find(next.headers, name) == Some(HStr(Trim(value)));
    assert lines[1..] == cont;
    assert Run(st, lines) == Run(next, cont);
    RunFolds(next, cont, Trim(value));
  }

  lemma {:induction false} RunKeepsStatus(st: ParseState, lines: seq<string>, status: string)
    requires !KeyIsFalsy(st.key) && Find(st.headers, "0") == Some(HStr(status))
    requires forall i :: 0 <= i < |lines| ==> SplitColon(lines[i]).Some? ==> !KeyIsFalsy(SplitColon(lines[i]).value.0)
    ensures Find(Run(st, lines).headers, "0") == Some(HStr(status))
    decreases |lines|
  {
    if lines != [] {
      var next := Step(st, lines[0]);
      assert !KeyIsFalsy(next.key) && Find(next.headers, "0") == Some(HStr(status));
      RunKeepsStatus(next, lines[1..], status);
    }
  }

  /** A colon-free first line (the status line of a response) is stored
      trimmed under "0", and it stays there when the next line is a field
      and no field is named "" or "0": later colon-free lines are then
      either folded into the current field or ignored. */
  lemma StatusLineKept(status: string, rest: seq<string>)
    requires ':' !in status && !IsFolded(status)
    requires rest != [] ==> SplitColon(rest[0]).Some?
    requires forall i :: 0 <= i < |rest| ==> SplitColon(rest[i]).Some? ==> !KeyIsFalsy(SplitColon(rest[i]).value.0)
    ensures Find(Run(Init, [status] + rest).headers, "0") == Some(HStr(Trim(status)))
  {
    var lines := [status] + rest;
    assert lines[1..] == rest;
    var st := Step(Init, status);
    assert st == ParseState([("0", HStr(Trim(status)))], "");
    if rest != [] {
      var st2 := Step(st, rest[0]);
      assert !KeyIsFalsy(st2.key);
      assert Find(st2.headers, "0") == Some(HStr(Trim(status)));
      RunKeepsStatus(st2, rest[1..], Trim(status));
    }
  }
}
