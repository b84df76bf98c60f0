/** `generate_tfvars` (cloudy/terraform/utils.py): a dict rendered as Terraform variable assignments,
    one `key = value` line per entry. */
module Tfvars {
  import opened Json

  /** The line of one entry: a string value in double quotes, exactly as it is (nothing is
      escaped); any other value as `str()` renders it, without quotes. */
  function Line(key: string, value: Json): (line: string)
    // the key, then ` = `
    ensures |line| >= |key| + 3 && line[..|key| + 3] == key + " = "
    // then a string value between double quotes, unchanged
    ensures value.Str? ==> line[|key| + 3..] == "\"" + value.s + "\""
    // or any other value as `repr()` shows it, without quotes
    ensures !value.Str? ==> line[|key| + 3..] == Repr(value)
  {
    if value.Str? then key + " = \"" + value.s + "\"" else key + " = " + Show(value)
  }

  /** The lines of `items`, in order: a helper of `Render`, whose lines say what they hold through `Line`. */
  function Lines(items: seq<(string, Json)>): (lines: seq<string>)
    ensures |lines| == |items|
    ensures forall i :: 0 <= i < |items| ==> lines[i] == Line(items[i].0, items[i].1)
  {
    seq(|items|, i requires 0 <= i < |items| => Line(items[i].0, items[i].1))
  }

  /** `generate_tfvars(custom_values)`: the lines of the entries in iteration order, joined by
      newlines, with no newline after the last. */
  function Render(fields: seq<(string, Json)>): (text: string)
    // the text is empty exactly for an empty dict: every entry has a line of its own
    ensures text == "" <==> fields == []
  {
    var lines := Lines(Items(fields));
    if fields == [] then
      assert Keys(fields) == [];
      JoinWith(lines, "\n")
    else
      assert Lookup(fields, fields[0].0).Some?;
      assert |lines| > 0 && |lines[0]| >= 3;
      JoinWith(lines, "\n")
  }

  /** `s.split(sep)`: the pieces between the separators, so one more piece than separators. */
  function Split(s: string, sep: char): (parts: seq<string>)
    ensures |parts| > 0
    decreases |s|
  {
    if s == [] then [""]
    else
      var rest := Split(s[1..], sep);
      if s[0] == sep then [""] + rest else [[s[0]] + rest[0]] + rest[1..]
  }

  /** A prefix without the separator joins the first piece of what follows it. */
  lemma {:induction false} SplitAfterPlain(p: string, t: string, sep: char)
    requires sep !in p
    ensures Split(p + t, sep) == [p + Split(t, sep)[0]] + Split(t, sep)[1..]
    decreases |p|
  {
    if p != [] {
      SplitAfterPlain(p[1..], t, sep);
      assert (p + t)[1..] == p[1..] + t;
      assert (p + t)[0] == p[0];
      assert [p[0]] + (p[1..] + Split(t, sep)[0]) == p + Split(t, sep)[0];
    } else {
      assert p + t == t;
      assert p + Split(t, sep)[0] == Split(t, sep)[0];
      assert [Split(t, sep)[0]] + Split(t, sep)[1..] == Split(t, sep);
    }
  }

  /** Joining pieces that hold no separator, then splitting, gives the pieces back. */
  lemma {:induction false} SplitJoin(parts: seq<string>, sep: char)
    requires |parts| > 0
    requires forall i :: 0 <= i < |parts| ==> sep !in parts[i]
    ensures Split(JoinWith(parts, [sep]), sep) == parts
    decreases |parts|
  {
    if |parts| == 1 {
      SplitAfterPlain(parts[0], [], sep);
      assert parts[0] + [] == parts[0];
    } else {
      var rest := JoinWith(parts[1..], [sep]);
      SplitJoin(parts[1..], sep);
      assert parts[0] + [sep] + rest == parts[0] + ([sep] + rest);
      SplitAfterPlain(parts[0], [sep] + rest, sep);
      assert ([sep] + rest)[1..] == rest;
      assert parts[0] + "" == parts[0];
      assert [parts[0]] + parts[1..] == parts;
    }
  }

  /** An empty dict renders as the empty string. */
  lemma RenderEmpty()
    ensures Render([]) == ""
  {
    assert Keys([]) == [];
  }

  /** A dict whose keys and rendered values hold no newline renders as exactly one line per
      entry, in iteration order, each starting with its key: splitting the text on newlines
      gives the lines back, so there is no trailing newline. */
  lemma RenderLines(fields: seq<(string, Json)>)
    requires fields != []
    requires forall i :: 0 <= i < |Items(fields)| ==> '\n' !in Line(Items(fields)[i].0, Items(fields)[i].1)
    ensures var items := Items(fields);
      && Split(Render(fields), '\n') == Lines(items)
      && |Split(Render(fields), '\n')| == |Keys(fields)|
      && forall i :: 0 <= i < |items| ==>
           var line := Split(Render(fields), '\n')[i];
           |line| >= |items[i].0| + 3 && line[..|items[i].0| + 3] == items[i].0 + " = "
  {
    var items := Items(fields);
    assert Lookup(fields, fields[0].0).Some?;
    SplitJoin(Lines(items), '\n');
    assert "\n" == ['\n'];
  }

  /** A string value is written between double quotes exactly as it is: a quote inside it is
      not escaped, so its line holds more than the two quotes around the value. */
  lemma StringValueUnescaped(key: string, s: string)
    ensures |Line(key, Str(s))| == |key| + |s| + 5
    ensures '"' in s ==> multiset(Line(key, Str(s)))['"'] > 2
  {
    var line := Line(key, Str(s));
    assert line == key + " = \"" + s + "\"";
    if '"' in s {
      assert multiset(line) == multiset(key) + multiset(" = \"") + multiset(s) + multiset("\"");
      assert multiset(" = \"")['"'] == 1;
      assert multiset("\"")['"'] == 1;
      assert '"' in multiset(s);
    }
  }

  /** Any other value is written bare, as `str()` renders it: `True`/`False` for a boolean,
      `None` for null, the decimal digits for an integer, with no quotes added. */
  lemma OtherValueBare(key: string, value: Json)
    requires !value.Str?
    ensures Line(key, value)[..|key| + 3] == key + " = "
    ensures Line(key, value)[|key| + 3..] == Repr(value)
    ensures value == Null ==> Line(key, value)[|key| + 3..] == "None"
    ensures value.Bool? ==> Line(key, value)[|key| + 3..] == (if value.b then "True" else "False")
    ensures value.Int? ==> Line(key, value)[|key| + 3..] == IntToString(value.i)
  {
    assert Line(key, value) == (key + " = ") + Repr(value);
  }

  /** One more entry adds its line at the end. */
  lemma LinesSnoc(items: seq<(string, Json)>, i: nat)
    requires i < |items|
    ensures Lines(items[..i + 1]) == Lines(items[..i]) + [Line(items[i].0, items[i].1)]
  {
    assert items[..i + 1][..i] == items[..i];
  }

  /** `generate_tfvars`, as the source runs it: one line appended per entry, then the join. */
  method GenerateTfvars(fields: seq<(string, Json)>) returns (text: string)
    ensures text == Render(fields)
  {
    var items := Items(fields);
    var lines: seq<string> := [];
    var i := 0;
    while i < |items|
      invariant i <= |items|
      invariant lines == Lines(items[..i])
    {
      LinesSnoc(items, i);
      var (key, value) := items[i];
      if value.Str? {
        lines := lines + [key + " = \"" + value.s + "\""];
      } else {
        lines := lines + [key + " = " + Show(value)];
      }
      i := i + 1;
    }
    assert items[..i] == items;
    text := JoinWith(lines, "\n");
  }
}
