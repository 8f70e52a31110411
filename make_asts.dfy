/**
 * The generator of the syntax-tree modules (craftinginterpreters/make_ASTs.py).
 * `make_one_tree` writes a module header, then for each subclass line of the
 * form `Name : Type field, Type field` a class with an `__init__` that stores
 * each field and an `accept` that calls `visit<Name>`. The output file is a
 * `TextFile` whose writes are kept in order; Python's `ValueError` from a
 * failed tuple unpacking is returned instead of raised, after the writes that
 * preceded it.
 */
module MakeAsts {
  import opened Basics

  /** Python's `str.isspace` on ASCII: space, tab through carriage return, and the four separators 0x1c-0x1f. */
  predicate IsSpace(c: char) {
    c == ' ' || ('\t' <= c <= '\r') || ('\U{1c}' <= c <= '\U{1f}')
  }

  predicate NoSpace(w: string) {
    forall i :: 0 <= i < |w| ==> !IsSpace(w[i])
  }

  /** `s.split(sep)`: the pieces between occurrences of `sep`, empty ones included. */
  function SplitOn(s: string, sep: char): (r: seq<string>)
    ensures |r| >= 1
    ensures forall k :: 0 <= k < |r| ==> sep !in r[k]
  {
    if s == [] then [""]
    else
      var rest := SplitOn(s[1..], sep);
      if s[0] == sep then [""] + rest else [[s[0]] + rest[0]] + rest[1..]
  }

  /** `sep.join(parts)`. */
  function JoinWith(parts: seq<string>, sep: char): string {
    if |parts| == 0 then ""
    else if |parts| == 1 then parts[0]
    else parts[0] + [sep] + JoinWith(parts[1..], sep)
  }

  /** Joining the pieces of a split gives back the string. */
  lemma {:induction false} JoinSplit(s: string, sep: char)
    ensures JoinWith(SplitOn(s, sep), sep) == s
  {
    if s != [] {
      var rest := SplitOn(s[1..], sep);
      JoinSplit(s[1..], sep);
      if s[0] == sep {
        assert ([""] + rest)[1..] == rest;
      } else if |rest| > 1 {
        assert ([[s[0]] + rest[0]] + rest[1..])[1..] == rest[1..];
        assert JoinWith(rest, sep) == rest[0] + [sep] + JoinWith(rest[1..], sep);
      }
    }
  }

  /** A split makes one more piece than there are separators. */
  lemma {:induction false} SplitCount(s: string, sep: char)
    ensures |SplitOn(s, sep)| == multiset(s)[sep] + 1
  {
    if s != [] {
      SplitCount(s[1..], sep);
      assert s == [s[0]] + s[1..];
      assert multiset(s) == multiset([s[0]]) + multiset(s[1..]);
    }
  }

  lemma {:induction false} SplitWithout(a: string, sep: char)
    requires sep !in a
    ensures SplitOn(a, sep) == [a]
  {
    if a != [] {
      SplitWithout(a[1..], sep);
      assert [a[0]] + a[1..] == a;
    }
  }

  lemma {:induction false} SplitFirst(a: string, b: string, sep: char)
    requires sep !in a
    ensures SplitOn(a + [sep] + b, sep) == [a] + SplitOn(b, sep)
  {
    var s := a + [sep] + b;
    if a == [] {
      assert s[1..] == b;
    } else {
      assert s[1..] == a[1..] + [sep] + b;
      SplitFirst(a[1..], b, sep);
      assert [a[0]] + a[1..] == a;
    }
  }

  /** Splitting a join of separator-free pieces gives back the pieces. */
  lemma {:induction false} SplitJoin(parts: seq<string>, sep: char)
    requires |parts| >= 1
    requires forall k :: 0 <= k < |parts| ==> sep !in parts[k]
    ensures SplitOn(JoinWith(parts, sep), sep) == parts
  {
    if |parts| == 1 {
      SplitWithout(parts[0], sep);
    } else {
      SplitFirst(parts[0], JoinWith(parts[1..], sep), sep);
      SplitJoin(parts[1..], sep);
      assert [parts[0]] + parts[1..] == parts;
    }
  }

  lemma {:induction false} NotInJoin(parts: seq<string>, sep: char, c: char)
    requires c != sep
    requires forall k :: 0 <= k < |parts| ==> c !in parts[k]
    ensures c !in JoinWith(parts, sep)
  {
    if |parts| > 1 {
      NotInJoin(parts[1..], sep, c);
    }
  }

  /** The end of the run of non-space characters that starts at `i`. */
  function WordEnd(s: string, i: nat): (j: nat)
    requires i <= |s|
    ensures i <= j <= |s|
    ensures forall k :: i <= k < j ==> !IsSpace(s[k])
    ensures j == |s| || IsSpace(s[j])
    decreases |s| - i
  {
    if i < |s| && !IsSpace(s[i]) then WordEnd(s, i + 1) else i
  }

  /** `s.split()`: the maximal runs of non-space characters, in order. */
  function Words(s: string): (r: seq<string>)
    ensures forall k :: 0 <= k < |r| ==> r[k] != [] && NoSpace(r[k])
    decreases |s|
  {
    if s == [] then []
    else if IsSpace(s[0]) then Words(s[1..])
    else
      var n := WordEnd(s, 0);
      assert NoSpace(s[..n]);
      [s[..n]] + Words(s[n..])
  }

  lemma {:induction false} WordEndAfter(w: string, rest: string, i: nat)
    requires NoSpace(w) && i <= |w|
    requires rest == [] || IsSpace(rest[0])
    ensures WordEnd(w + rest, i) == |w|
    decreases |w| - i
  {
    if i < |w| {
      WordEndAfter(w, rest, i + 1);
    }
  }

  lemma WordsFirst(w: string, rest: string)
    requires w != [] && NoSpace(w)
    requires rest == [] || IsSpace(rest[0])
    ensures Words(w + rest) == [w] + Words(rest)
  {
    WordEndAfter(w, rest, 0);
    assert (w + rest)[..|w|] == w;
    assert (w + rest)[|w|..] == rest;
  }

  lemma WordsAfterSpace(c: char, rest: string)
    requires IsSpace(c)
    ensures Words([c] + rest) == Words(rest)
  {
    assert ([c] + rest)[1..] == rest;
  }

  /** A field written ` Type name` splits into its type and its name. */
  lemma FieldWords(t: string, v: string)
    requires t != [] && NoSpace(t) && v != [] && NoSpace(v)
    ensures Words(" " + t + " " + v) == [t, v]
  {
    assert " " + t + " " + v == [' '] + (t + ([' '] + v));
    WordsAfterSpace(' ', t + ([' '] + v));
    WordsFirst(t, [' '] + v);
    WordsAfterSpace(' ', v);
    WordsFirst(v, []);
    assert v + [] == v;
  }

  function StripLeft(s: string): (r: string)
    ensures r == [] || !IsSpace(r[0])
  {
    if s != [] && IsSpace(s[0]) then StripLeft(s[1..]) else s
  }

  function StripRight(s: string): (r: string)
    ensures r == [] || !IsSpace(r[|r| - 1])
    ensures s != [] && !IsSpace(s[0]) ==> r != [] && r[0] == s[0]
  {
    if s != [] && IsSpace(s[|s| - 1]) then StripRight(s[..|s| - 1]) else s
  }

  /** `s.strip()`: no space at either end. */
  function Strip(s: string): (r: string)
    ensures r == [] || (!IsSpace(r[0]) && !IsSpace(r[|r| - 1]))
  {
    StripRight(StripLeft(s))
  }

  lemma {:induction false} StripRightPad(name: string, pad: string)
    requires name != [] && !IsSpace(name[|name| - 1])
    requires forall i :: 0 <= i < |pad| ==> IsSpace(pad[i])
    ensures StripRight(name + pad) == name
    decreases |pad|
  {
    if pad != [] {
      assert (name + pad)[..|name + pad| - 1] == name + pad[..|pad| - 1];
      StripRightPad(name, pad[..|pad| - 1]);
    } else {
      assert name + pad == name;
    }
  }

  /** A space-free name with spaces after it strips to the name. */
  lemma StripPadded(name: string, pad: string)
    requires name != [] && NoSpace(name)
    requires forall i :: 0 <= i < |pad| ==> IsSpace(pad[i])
    ensures Strip(name + pad) == name
  {
    assert (name + pad)[0] == name[0];
    StripRightPad(name, pad);
  }

  /** What `ValueError` says when a split has the wrong number of pieces for two names. */
  datatype ValueError = Unpack(got: nat)

  function ValueErrorText(e: ValueError): string {
    if e.got > 2 then "too many values to unpack (expected 2)"
    else "not enough values to unpack (expected 2, got " + (if e.got == 0 then "0" else "1") + ")"
  }

  /** One signature entry `name:Type` from a field ` Type name`. */
  function Entry(arg: string): Result<string, ValueError> {
    var words := Words(arg);
    if |words| != 2 then Err(Unpack(|words|))
    else Ok(Strip(words[1]) + ":" + Strip(words[0]))
  }

  /** The signature of a subclass, field by field; the first malformed field is the error. */
  function Signature(args: seq<string>): (r: Result<seq<string>, ValueError>)
    ensures r.Ok? ==> |r.value| == |args|
  {
    if args == [] then Ok([])
    else
      match Signature(args[..|args| - 1])
      case Err(e) => Err(e)
      case Ok(signature) =>
        match Entry(args[|args| - 1])
        case Err(e) => Err(e)
        case Ok(entry) => Ok(signature + [entry])
  }

  /** A subclass line: its stripped class name and signature, or the error of the unpacking that fails. */
  function ParseSpec(subspec: string): Result<(string, seq<string>), ValueError> {
    var parts := SplitOn(subspec, ':');
    if |parts| != 2 then Err(Unpack(|parts|))
    else
      match Signature(SplitOn(parts[1], ','))
      case Err(e) => Err(e)
      case Ok(signature) => Ok((Strip(parts[0]), signature))
  }

  /** A subclass line must hold exactly one colon. */
  lemma SpecNeedsOneColon(subspec: string)
    ensures multiset(subspec)[':'] != 1 ==> ParseSpec(subspec) == Err(Unpack(multiset(subspec)[':'] + 1))
    ensures ParseSpec(subspec).Ok? ==> multiset(subspec)[':'] == 1
  {
    SplitCount(subspec, ':');
  }

  /** A subclass line with nothing after its colon is refused: its one field has no words. */
  lemma NoFieldsRefused(name: string)
    requires ':' !in name
    ensures ParseSpec(name + ":") == Err(Unpack(0))
  {
    assert name + ":" == name + [':'] + "";
    SplitFirst(name, "", ':');
    assert SplitOn("", ',') == [""];
    assert [""][..0] == [];
  }

  /** A field of the table: its type and its name. */
  datatype Field = Field(typeName: string, name: string)

  /** A name the table can hold: non-empty, no spaces, no colon, no comma. */
  predicate Word(w: string) {
    w != [] && NoSpace(w) && ':' !in w && ',' !in w
  }

  function FieldArgs(fields: seq<Field>): seq<string> {
    seq(|fields|, k requires 0 <= k < |fields| => " " + fields[k].typeName + " " + fields[k].name)
  }

  function FieldEntries(fields: seq<Field>): seq<string> {
    seq(|fields|, k requires 0 <= k < |fields| => fields[k].name + ":" + fields[k].typeName)
  }

  /** A subclass line as the tables write it: the class name, spaces, a colon, then ` Type name` fields separated by commas. */
  function Render(name: string, pad: string, fields: seq<Field>): string {
    name + pad + ":" + JoinWith(FieldArgs(fields), ',')
  }

  lemma {:induction false} SignatureOfFields(fields: seq<Field>)
    requires forall k :: 0 <= k < |fields| ==> Word(fields[k].typeName) && Word(fields[k].name)
    ensures Signature(FieldArgs(fields)) == Ok(FieldEntries(fields))
  {
    if fields != [] {
      var n := |fields| - 1;
      assert FieldArgs(fields)[..n] == FieldArgs(fields[..n]);
      SignatureOfFields(fields[..n]);
      FieldWords(fields[n].typeName, fields[n].name);
      StripPadded(fields[n].typeName, "");
      StripPadded(fields[n].name, "");
      assert fields[n].typeName + "" == fields[n].typeName;
      assert fields[n].name + "" == fields[n].name;
      assert FieldEntries(fields[..n]) + [FieldEntries(fields)[n]] == FieldEntries(fields);
    }
  }

  /** A well-formed subclass line parses back to its class name and a `name:Type` entry per field, in order. */
  lemma ParseRendered(name: string, pad: string, fields: seq<Field>)
    requires Word(name) && |fields| >= 1
    requires forall i :: 0 <= i < |pad| ==> IsSpace(pad[i])
    requires forall k :: 0 <= k < |fields| ==> Word(fields[k].typeName) && Word(fields[k].name)
    ensures ParseSpec(Render(name, pad, fields)) == Ok((name, FieldEntries(fields)))
  {
    var args := FieldArgs(fields);
    var joined := JoinWith(args, ',');
    forall k | 0 <= k < |args|
      ensures ':' !in args[k] && ',' !in args[k]
    {
      assert args[k] == " " + fields[k].typeName + " " + fields[k].name;
    }
    NotInJoin(args, ',', ':');
    assert !IsSpace(':');
    assert ':' !in name + pad;
    assert Render(name, pad, fields) == (name + pad) + [':'] + joined;
    SplitFirst(name + pad, joined, ':');
    SplitWithout(joined, ':');
    StripPadded(name, pad);
    SplitJoin(args, ',');
    SignatureOfFields(fields);
  }

  /** The table's line for assignments parses to the class `Assign` with the signature `name:Token,value:Expr`. */
  lemma AssignLineParses()
    ensures ParseSpec("Assign   : Token name, Expr value") == Ok(("Assign", ["name:Token", "value:Expr"]))
  {
    var fields := [Field("Token", "name"), Field("Expr", "value")];
    AssignLineWords();
    AssignLineRendered();
    ParseRendered("Assign", "   ", fields);
    AssignLineEntries();
  }

  lemma AssignLineWords()
    ensures Word("Assign") && Word("Token") && Word("name") && Word("Expr") && Word("value")
    ensures forall i :: 0 <= i < |"   "| ==> IsSpace("   "[i])
  {
  }

  lemma AssignLineRendered()
    ensures Render("Assign", "   ", [Field("Token", "name"), Field("Expr", "value")]) == "Assign   : Token name, Expr value"
  {
    var args := FieldArgs([Field("Token", "name"), Field("Expr", "value")]);
    assert |args| == 2;
    assert args[0] == " Token name" by {
      assert args[0] == " " + "Token" + " " + "name";
    }
    assert args[1] == " Expr value" by {
      assert args[1] == " " + "Expr" + " " + "value";
    }
    assert args[1..] == [args[1]];
    var joined := JoinWith(args, ',');
    assert joined == " Token name" + [','] + " Expr value";
    assert joined == " Token name, Expr value";
    AssignLineText();
  }

  lemma AssignLineText()
    ensures "Assign" + "   " + ":" + " Token name, Expr value" == "Assign   : Token name, Expr value"
  {
  }

  lemma AssignLineEntries()
    ensures FieldEntries([Field("Token", "name"), Field("Expr", "value")]) == ["name:Token", "value:Expr"]
  {
    var entries := FieldEntries([Field("Token", "name"), Field("Expr", "value")]);
    assert entries[0] == "name" + ":" + "Token" == "name:Token";
    assert entries[1] == "value" + ":" + "Expr" == "value:Expr";
  }

  /** `arg.split(':')[0]`: the field name of a signature entry. */
  function FieldName(entry: string): string {
    SplitOn(entry, ':')[0]
  }

  lemma FieldNameOfEntry(field: Field)
    requires ':' !in field.name
    ensures FieldName(field.name + ":" + field.typeName) == field.name
  {
    assert field.name + ":" + field.typeName == field.name + [':'] + field.typeName;
    SplitFirst(field.name, field.typeName, ':');
  }

  /** One call of `f.write`, named by the template it fills; `Text` gives its characters. */
  datatype Write =
    | ModuleHeader(masterClass: string)
    | ImportExpr
    | ClassStart(masterClass: string, subclass: string, signature: seq<string>)
    | StoreField(fieldName: string)
    | ClassEnd(subclass: string)

  function Text(w: Write): string {
    match w
    case ModuleHeader(masterClass) =>
      "\n# " + masterClass + ".py defines the class " + masterClass + " and its\n"
      + "# subclasses that make up one abstract syntax tree.\n\n"
      + "# This code is automatically generated (see make_ASTs.py), *DO NOT EDIT*.\n\n"
      + "#This work is licensed under a\n"
      + "#  Creative Commons Attribution-NonCommercial 4.0 International License\n"
      + "#  see http://creativecommons.org/licenses/by-nc/4.0/\n\n"
      + "from Token import Token\nfrom typing import List\n\n"
      + "class " + masterClass + ":\n\tdef accept(self,visitor:object):\n\t\traise NotImplementedError(\"Forgot something?\")\n"
    case ImportExpr => "import Expr\n"
    case ClassStart(masterClass, subclass, signature) =>
      "\nclass " + subclass + "(" + masterClass + "):\n\tdef __init__(self, " + JoinWith(signature, ',')
      + " ):\n\t\t# initialize attributes\n"
    case StoreField(name) => "\t\tself." + name + " = " + name + "\n"
    case ClassEnd(subclass) => "\n\tdef accept(self, visitor:object):\n\t\treturn visitor.visit" + subclass + "(self)\n"
  }

  /** The header, and the extra import only the statement module gets. */
  function HeadWrites(masterClass: string): seq<Write> {
    [ModuleHeader(masterClass)] + (if masterClass == "Stmt" then [ImportExpr] else [])
  }

  function AssignLines(signature: seq<string>): seq<Write> {
    seq(|signature|, k requires 0 <= k < |signature| => StoreField(FieldName(signature[k])))
  }

  function SubclassWrites(masterClass: string, subclass: string, signature: seq<string>): seq<Write> {
    [ClassStart(masterClass, subclass, signature)] + AssignLines(signature) + [ClassEnd(subclass)]
  }

  /** What `make_one_tree` writes, and the error that stops it, if any. */
  datatype Generated = Generated(writes: seq<Write>, error: Option<ValueError>)

  type Parsed = Result<(string, seq<string>), ValueError>

  /** The writes for the table's lines, given what each line parses to: the first error stops them. */
  function Generate(masterClass: string, lines: seq<Parsed>): Generated {
    if lines == [] then Generated(HeadWrites(masterClass), None)
    else
      var before := Generate(masterClass, lines[..|lines| - 1]);
      var last := lines[|lines| - 1];
      if before.error.Some? then before
      else if last.Err? then Generated(before.writes, Some(last.error))
      else Generated(before.writes + SubclassWrites(masterClass, last.value.0, last.value.1), None)
  }

  function ParseAll(subList: seq<string>): (r: seq<Parsed>)
    ensures |r| == |subList|
  {
    seq(|subList|, k requires 0 <= k < |subList| => ParseSpec(subList[k]))
  }

  function Output(masterClass: string, subList: seq<string>): Generated {
    Generate(masterClass, ParseAll(subList))
  }

  /** Writes are only ever appended: what a shorter table writes starts what the whole table writes. */
  lemma {:induction false} GenerateGrows(masterClass: string, lines: seq<Parsed>, i: nat)
    requires i <= |lines|
    ensures Generate(masterClass, lines[..i]).writes <= Generate(masterClass, lines).writes
    decreases |lines| - i
  {
    if i < |lines| {
      var n := |lines| - 1;
      assert lines[..n][..i] == lines[..i];
      GenerateGrows(masterClass, lines[..n], i);
    } else {
      assert lines[..i] == lines;
    }
  }

  /** The header always comes first, and the statement module alone imports the expression module. */
  lemma OutputStartsWithHeader(masterClass: string, subList: seq<string>)
    ensures HeadWrites(masterClass) <= Output(masterClass, subList).writes
    ensures ImportExpr in HeadWrites(masterClass) <==> masterClass == "Stmt"
  {
    GenerateGrows(masterClass, ParseAll(subList), 0);
    assert ParseAll(subList)[..0] == [];
  }

  /** One more line: its subclass is written, or its error stops the generation. */
  lemma GenerateStep(masterClass: string, lines: seq<Parsed>, i: nat)
    requires i < |lines|
    requires Generate(masterClass, lines[..i]).error.None?
    ensures lines[i].Err? ==>
      Generate(masterClass, lines[..i + 1]) == Generated(Generate(masterClass, lines[..i]).writes, Some(lines[i].error))
    ensures lines[i].Ok? ==>
      Generate(masterClass, lines[..i + 1]) ==
        Generated(Generate(masterClass, lines[..i]).writes + SubclassWrites(masterClass, lines[i].value.0, lines[i].value.1), None)
  {
    assert lines[..i + 1][..i] == lines[..i];
  }

  /** After the first malformed line nothing more is written. */
  lemma {:induction false} GenerateStopsAtError(masterClass: string, lines: seq<Parsed>, i: nat)
    requires i <= |lines|
    requires Generate(masterClass, lines[..i]).error.Some?
    ensures Generate(masterClass, lines) == Generate(masterClass, lines[..i])
    decreases |lines| - i
  {
    if i < |lines| {
      var n := |lines| - 1;
      assert lines[..n][..i] == lines[..i];
      GenerateStopsAtError(masterClass, lines[..n], i);
    } else {
      assert lines[..i] == lines;
    }
  }

  /** The generation succeeds exactly when every line is well formed. */
  lemma {:induction false} GenerateSucceedsIff(masterClass: string, lines: seq<Parsed>)
    ensures Generate(masterClass, lines).error.None? <==> forall k :: 0 <= k < |lines| ==> lines[k].Ok?
  {
    if lines != [] {
      var n := |lines| - 1;
      GenerateSucceedsIff(masterClass, lines[..n]);
      assert forall k :: 0 <= k < n ==> lines[..n][k] == lines[k];
    }
  }

  /** A failed generation reports the error of the first malformed line. */
  lemma {:induction false} GenerateErrorIsFirst(masterClass: string, lines: seq<Parsed>) returns (k: nat)
    requires Generate(masterClass, lines).error.Some?
    ensures k < |lines| && lines[k].Err?
    ensures Generate(masterClass, lines).error == Some(lines[k].error)
    ensures forall j :: 0 <= j < k ==> lines[j].Ok?
  {
    var n := |lines| - 1;
    assert forall j :: 0 <= j < n ==> lines[..n][j] == lines[j];
    if Generate(masterClass, lines[..n]).error.Some? {
      k := GenerateErrorIsFirst(masterClass, lines[..n]);
    } else {
      GenerateSucceedsIff(masterClass, lines[..n]);
      k := n;
    }
  }

  /** `make_one_tree` fails exactly when some line of the table is malformed, and then with the first one's error. */
  lemma OutputErrorIsFirst(masterClass: string, subList: seq<string>) returns (k: nat)
    ensures Output(masterClass, subList).error.None? <==> forall j :: 0 <= j < |subList| ==> ParseSpec(subList[j]).Ok?
    ensures Output(masterClass, subList).error.Some? ==>
      k < |subList| && ParseSpec(subList[k]).Err? && Output(masterClass, subList).error == Some(ParseSpec(subList[k]).error) &&
      forall j :: 0 <= j < k ==> ParseSpec(subList[j]).Ok?
  {
    var lines := ParseAll(subList);
    assert forall j :: 0 <= j < |subList| ==> lines[j] == ParseSpec(subList[j]);
    GenerateSucceedsIff(masterClass, lines);
    k := 0;
    if Output(masterClass, subList).error.Some? {
      k := GenerateErrorIsFirst(masterClass, ParseAll(subList));
    }
  }

  /** A generated `__init__` stores every field of the line under its own name, in the order of the line. */
  lemma StoresEveryField(masterClass: string, name: string, fields: seq<Field>, k: nat)
    requires k < |fields|
    requires forall i :: 0 <= i < |fields| ==> ':' !in fields[i].name
    ensures SubclassWrites(masterClass, name, FieldEntries(fields))[k + 1] == StoreField(fields[k].name)
  {
    FieldNameOfEntry(fields[k]);
  }

  /** The file `make_one_tree` writes to: the writes made, in order. */
  class TextFile {
    var written: seq<Write>

    constructor ()
      ensures written == []
    {
      written := [];
    }

    method Write(w: Write)
      modifies this
      ensures written == old(written) + [w]
    {
      written := written + [w];
    }
  }

  /** The two unpackings of one subclass line, the second once per field, as `make_one_tree` does them. */
  method ParseSubclass(subspec: string) returns (r: Result<(string, seq<string>), ValueError>)
    ensures r == ParseSpec(subspec)
  {
    var parts := SplitOn(subspec, ':');
    if |parts| != 2 {
      return Err(Unpack(|parts|));
    }
    var subclass := Strip(parts[0]);
    var args := SplitOn(parts[1], ',');
    var signature := [];
    var j := 0;
    while j < |args|
      invariant j <= |args|
      invariant Signature(args[..j]) == Ok(signature)
    {
      assert args[..j + 1][..j] == args[..j];
      var words := Words(args[j]);
      if |words| != 2 {
        SignatureStopsAtError(args, j + 1);
        return Err(Unpack(|words|));
      }
      signature := signature + [Strip(words[1]) + ":" + Strip(words[0])];
      j := j + 1;
    }
    assert args[..j] == args;
    return Ok((subclass, signature));
  }

  /** The writes for one parsed subclass: its start, one store per signature entry, its `accept`. */
  method WriteSubclass(f: TextFile, masterClass: string, subclass: string, signature: seq<string>)
    modifies f
    ensures f.written == old(f.written) + SubclassWrites(masterClass, subclass, signature)
  {
    f.Write(ClassStart(masterClass, subclass, signature));
    var k := 0;
    while k < |signature|
      invariant k <= |signature|
      invariant f.written == old(f.written) + [ClassStart(masterClass, subclass, signature)] + AssignLines(signature[..k])
    {
      var vname := SplitOn(signature[k], ':')[0];
      assert AssignLines(signature[..k + 1]) == AssignLines(signature[..k]) + [StoreField(vname)];
      f.Write(StoreField(vname));
      k := k + 1;
    }
    assert signature[..k] == signature;
    f.Write(ClassEnd(subclass));
  }

  /** The module header, then the extra import when the module is the statement one. */
  method WriteHeader(f: TextFile, masterClass: string)
    modifies f
    ensures f.written == old(f.written) + HeadWrites(masterClass)
  {
    f.Write(ModuleHeader(masterClass));
    if masterClass == "Stmt" {
      f.Write(ImportExpr);
    }
  }

  /** One line of the table: parsed, then its subclass written if it is well formed. */
  method WriteLine(f: TextFile, masterClass: string, subspec: string) returns (parsed: Parsed)
    modifies f
    ensures parsed == ParseSpec(subspec)
    ensures parsed.Err? ==> f.written == old(f.written)
    ensures parsed.Ok? ==> f.written == old(f.written) + SubclassWrites(masterClass, parsed.value.0, parsed.value.1)
  {
    parsed := ParseSubclass(subspec);
    if parsed.Ok? {
      WriteSubclass(f, masterClass, parsed.value.0, parsed.value.1);
    }
  }

  /** `make_one_tree`: the header, then each subclass in table order; a malformed line stops it with its `ValueError`. */
  method MakeOneTree(f: TextFile, masterClass: string, subList: seq<string>) returns (error: Option<ValueError>)
    modifies f
    ensures f.written == old(f.written) + Output(masterClass, subList).writes
    ensures error == Output(masterClass, subList).error
  {
    ghost var lines := ParseAll(subList);
    WriteHeader(f, masterClass);
    assert lines[..0] == [];
    var i := 0;
    while i < |subList|
      invariant i <= |subList|
      invariant f.written == old(f.written) + Generate(masterClass, lines[..i]).writes
      invariant Generate(masterClass, lines[..i]).error.None?
    {
      ghost var before := Generate(masterClass, lines[..i]).writes;
      var parsed := WriteLine(f, masterClass, subList[i]);
      GenerateStep(masterClass, lines, i);
      if parsed.Err? {
        GenerateStopsAtError(masterClass, lines, i + 1);
        return Some(parsed.error);
      }
      assert f.written == old(f.written) + (before + SubclassWrites(masterClass, parsed.value.0, parsed.value.1));
      i := i + 1;
    }
    assert lines[..i] == lines;
    return None;
  }

  lemma {:induction false} SignatureStopsAtError(args: seq<string>, j: nat)
    requires j <= |args|
    requires Signature(args[..j]).Err?
    ensures Signature(args) == Signature(args[..j])
    decreases |args| - j
  {
    if j < |args| {
      var n := |args| - 1;
      assert args[..n][..j] == args[..j];
      SignatureStopsAtError(args[..n], j);
    } else {
      assert args[..j] == args;
    }
  }
}
