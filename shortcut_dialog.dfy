/*
 * The shortcut store behind the "快捷入口" dialogs: a text file with one
 * `path|category|alias` line per shortcut, the add dialog's OK handler, the
 * delete handler of the manage dialog, the category list the add dialog
 * offers, and the choice between opening a web address and a local file.
 * The file is an optional text (absent file = None); the dialogs' widgets
 * become the parameters their handlers read.
 */
module Shortcuts {
  import opened Wrappers
  import opened Text

  datatype Shortcut = Shortcut(path: string, category: string, alias: string)

  /** The category given to a shortcut saved with an empty category. */
  const Uncategorised: string := "未分类"

  /** The text of one stored line, without its newline. */
  function Body(x: Shortcut): string
  {
    x.path + "|" + x.category + "|" + x.alias
  }

  /** One stored line. */
  function Line(x: Shortcut): string
  {
    Body(x) + "\n"
  }

  /** A stripped line becomes a shortcut when `split("|", 2)` gives three fields. */
  function ParseLine(line: string): Option<Shortcut>
  {
    var parts := SplitAtMost(line, '|', 2);
    if |parts| == 3 then Some(Shortcut(parts[0], parts[1], parts[2])) else None
  }

  /** A line of the file after `strip()`, or None when it is blank. */
  function NonBlank(line: string): Option<string>
  {
    var t := Strip(line);
    if t == [] then None else Some(t)
  }

  /** The stripped, non-blank lines of the file, in order. */
  function Kept(lines: seq<string>): seq<string>
  {
    Collect(lines, NonBlank)
  }

  /** The shortcuts of the lines that parse, in order; the other lines are skipped. */
  function Parsed(lines: seq<string>): seq<Shortcut>
  {
    Collect(lines, ParseLine)
  }

  /** What loading the shortcut file gives; a missing file gives no shortcuts. */
  function Load(file: Option<string>): seq<Shortcut>
  {
    if file.None? then [] else Parsed(Kept(Split(file.value, '\n')))
  }

  /** The file text saving `xs` writes. */
  function Serialise(xs: seq<Shortcut>): string
  {
    if xs == [] then "" else Line(xs[0]) + Serialise(xs[1..])
  }

  // ---------------------------------------------------------------------------
  // Lists: keeping the values a per-element step produces, and checking every element
  // ---------------------------------------------------------------------------

  /** The values `f` gives for the elements of `xs`, in order, skipping the elements it refuses. */
  function Collect<A, B>(xs: seq<A>, f: A -> Option<B>): seq<B>
  {
    if xs == [] then []
    else (if f(xs[0]).Some? then [f(xs[0]).value] else []) + Collect(xs[1..], f)
  }

  lemma CollectCons<A, B>(x: A, xs: seq<A>, f: A -> Option<B>)
    ensures Collect([x] + xs, f) == (if f(x).Some? then [f(x).value] else []) + Collect(xs, f)
  {
    assert ([x] + xs)[1..] == xs;
  }

  lemma {:induction false} CollectAppend<A, B>(xs: seq<A>, x: A, f: A -> Option<B>)
    ensures Collect(xs + [x], f) == Collect(xs, f) + (if f(x).Some? then [f(x).value] else [])
  {
    if xs == [] {
      assert xs + [x] == [x] + [];
      CollectCons(x, [], f);
    } else {
      assert xs + [x] == [xs[0]] + (xs[1..] + [x]);
      CollectCons(xs[0], xs[1..] + [x], f);
      CollectAppend(xs[1..], x, f);
      assert xs == [xs[0]] + xs[1..];
      CollectCons(xs[0], xs[1..], f);
    }
  }

  /** Every element of the list passes the check. */
  predicate All<T>(xs: seq<T>, ok: T -> bool)
  {
    forall k :: 0 <= k < |xs| ==> ok(xs[k])
  }

  /** When every value `f` produces passes the check, so does every collected value. */
  lemma {:induction false} CollectAll<A, B>(xs: seq<A>, f: A -> Option<B>, ok: B -> bool)
    requires forall k :: 0 <= k < |xs| && f(xs[k]).Some? ==> ok(f(xs[k]).value)
    ensures All(Collect(xs, f), ok)
  {
    if xs != [] {
      assert forall k :: 0 <= k < |xs[1..]| ==> xs[1..][k] == xs[k + 1];
      CollectAll(xs[1..], f, ok);
      var head: seq<B> := if f(xs[0]).Some? then [f(xs[0]).value] else [];
      var rest := Collect(xs[1..], f);
      assert Collect(xs, f) == head + rest;
      forall k | 0 <= k < |head + rest| ensures ok((head + rest)[k]) {
        if k >= |head| {
          assert (head + rest)[k] == rest[k - |head|];
        }
      }
    }
  }

  lemma AllAppend<T>(xs: seq<T>, x: T, ok: T -> bool)
    requires All(xs, ok) && ok(x)
    ensures All(xs + [x], ok)
  {
    forall k | 0 <= k < |xs + [x]| ensures ok((xs + [x])[k]) {
      if k < |xs| {
        assert (xs + [x])[k] == xs[k];
      }
    }
  }

  // ---------------------------------------------------------------------------
  // Reading one line
  // ---------------------------------------------------------------------------

  /** A line is kept exactly when it holds two bars; its fields then join back to it. */
  lemma ParseLineBars(line: string)
    ensures ParseLine(line).Some? <==> exists i, j :: 0 <= i < j < |line| && line[i] == '|' && line[j] == '|'
  {
    var parts := SplitAtMost(line, '|', 2);
    if '|' in line {
      var i := IndexOf(line, '|');
      var rest := line[i + 1..];
      assert parts == [line[..i]] + SplitAtMost(rest, '|', 1);
      if '|' in rest {
        var m := IndexOf(rest, '|');
        assert line[i + 1 + m] == '|';
      } else {
        assert |parts| == 2;
        forall i', j | 0 <= i' < j < |line| && line[i'] == '|'
          ensures line[j] != '|'
        {
          assert line[j] == rest[j - i - 1];
        }
      }
    }
  }

  /** The fields of a kept line join back to the line, and the first two hold no bar. */
  lemma ParseLineBody(line: string)
    requires ParseLine(line).Some?
    ensures Body(ParseLine(line).value) == line
    ensures '|' !in ParseLine(line).value.path && '|' !in ParseLine(line).value.category
  {
    var parts := SplitAtMost(line, '|', 2);
    JoinSplitAtMost(line, '|', 2);
    assert parts == [parts[0]] + [parts[1], parts[2]];
    JoinCons(parts[0], [parts[1], parts[2]], '|');
    JoinCons(parts[1], [parts[2]], '|');
  }

  /** A shortcut whose stored line reads back as itself. */
  predicate Saves(x: Shortcut)
  {
    '\n' !in Body(x) && Unpadded(Body(x)) && ParseLine(Body(x)) == Some(x)
  }

  /**
   * The fields the store can hold: no bar in the path or the category, no
   * newline anywhere, no leading space on the path and no trailing space on
   * the alias (those would be stripped away on reading).
   */
  predicate WellFormed(x: Shortcut)
  {
    && '|' !in x.path && '|' !in x.category
    && '\n' !in x.path && '\n' !in x.category && '\n' !in x.alias
    && (x.path != [] ==> !IsSpace(x.path[0]))
    && (x.alias != [] ==> !IsSpace(x.alias[|x.alias| - 1]))
  }

  lemma WellFormedSaves(x: Shortcut)
    requires WellFormed(x)
    ensures Saves(x)
  {
    var b := Body(x);
    assert ParseLine(b) == Some(x) by {
      SplitAtMostTriple(x.path, x.category, x.alias, '|');
    }
    assert Unpadded(b) by {
      assert !IsSpace('|');
      assert b[0] == if x.path != [] then x.path[0] else '|';
      assert b[|b| - 1] == if x.alias != [] then x.alias[|x.alias| - 1] else '|';
    }
  }

  /**
   * A bar in the path shifts the fields: the saved entry reads back as a
   * different shortcut, whose category is the rest of the path and whose
   * alias holds the category.
   */
  lemma PipeInPathMisreads(p1: string, p2: string, c: string, a: string)
    requires WellFormed(Shortcut(p1, p2, c + "|" + a))
    ensures Load(Some(Serialise([Shortcut(p1 + "|" + p2, c, a)]))) == [Shortcut(p1, p2, c + "|" + a)]
    ensures Load(Some(Serialise([Shortcut(p1 + "|" + p2, c, a)]))) != [Shortcut(p1 + "|" + p2, c, a)]
  {
    var x, y := Shortcut(p1 + "|" + p2, c, a), Shortcut(p1, p2, c + "|" + a);
    assert Body(x) == Body(y);
    assert Serialise([x]) == Body(y) + "\n";
    WellFormedSaves(y);
    LoadOneLine(Body(y), y);
    assert |y.path| < |x.path|;
  }

  /** A file of one clean line loads as that line's shortcut. */
  lemma LoadOneLine(b: string, y: Shortcut)
    requires Clean(b) && ParseLine(b) == Some(y)
    ensures Load(Some(b + "\n")) == [y]
  {
    assert b + "\n" == b + ['\n'] + "";
    LoadCons(b, "", y);
    LoadEmpty();
  }

  // ---------------------------------------------------------------------------
  // Saving and loading
  // ---------------------------------------------------------------------------

  /** One more line read: its shortcut, if it has one, goes at the end. */
  lemma ParsedStep(lines: seq<string>, i: nat)
    requires i < |lines|
    ensures Parsed(lines[..i + 1]) == Parsed(lines[..i]) + if ParseLine(lines[i]).Some? then [ParseLine(lines[i]).value] else []
  {
    assert lines[..i + 1] == lines[..i] + [lines[i]];
    CollectAppend(lines[..i], lines[i], ParseLine);
  }

  lemma {:induction false} SerialiseAppend(xs: seq<Shortcut>, x: Shortcut)
    ensures Serialise(xs + [x]) == Serialise(xs) + Line(x)
  {
    if xs == [] {
      assert xs + [x] == [x];
    } else {
      assert (xs + [x])[1..] == xs[1..] + [x];
      SerialiseAppend(xs[1..], x);
    }
  }

  /** A clean first line adds its shortcut in front of what the rest of the file loads as. */
  lemma LoadCons(b: string, rest: string, x: Shortcut)
    requires Clean(b) && ParseLine(b) == Some(x)
    ensures Load(Some(b + ['\n'] + rest)) == [x] + Load(Some(rest))
  {
    SplitAt(b, rest, '\n');
    var lines := Split(rest, '\n');
    StripUnpadded(b);
    CollectCons(b, lines, NonBlank);
    CollectCons(b, Kept(lines), ParseLine);
  }

  lemma LoadEmpty()
    ensures Load(Some("")) == []
  {
    assert Split("", '\n') == [""];
    CollectCons("", [], NonBlank);
  }

  /** Saving shortcuts that each read back, then loading, gives the same list. */
  lemma {:induction false} SerialiseLoads(xs: seq<Shortcut>)
    requires All(xs, Saves)
    ensures Load(Some(Serialise(xs))) == xs
  {
    if xs == [] {
      LoadEmpty();
    } else {
      SerialiseLoadsFirst(xs[0], xs[1..]);
      assert All(xs[1..], Saves) by {
        forall k | 0 <= k < |xs[1..]| ensures Saves(xs[1..][k]) {
          assert xs[1..][k] == xs[k + 1];
        }
      }
      SerialiseLoads(xs[1..]);
      assert xs == [xs[0]] + xs[1..];
    }
  }

  lemma SerialiseLoadsFirst(x: Shortcut, xs: seq<Shortcut>)
    requires Saves(x)
    ensures Load(Some(Serialise([x] + xs))) == [x] + Load(Some(Serialise(xs)))
  {
    var b := Body(x);
    assert b[|x.path|] == '|';
    assert ([x] + xs)[1..] == xs;
    assert Serialise([x] + xs) == b + ['\n'] + Serialise(xs);
    LoadCons(b, Serialise(xs), x);
  }

  lemma StripKeepsOut(s: string, c: char)
    requires c !in s
    ensures c !in Strip(s)
  {
    var l := TrimLeft(s);
    forall i | 0 <= i < |l| ensures l[i] != c {
      assert l[i] == s[|s| - |l| + i];
    }
    var t := TrimRight(l);
    forall i | 0 <= i < |t| ensures t[i] != c {
      assert t[i] == l[i];
    }
  }

  /** A kept line: non-empty, one line, and already stripped. */
  predicate Clean(l: string)
  {
    l != [] && '\n' !in l && Unpadded(l)
  }

  lemma KeptClean(lines: seq<string>)
    requires forall k :: 0 <= k < |lines| ==> '\n' !in lines[k]
    ensures All(Kept(lines), Clean)
  {
    forall k | 0 <= k < |lines| && NonBlank(lines[k]).Some?
      ensures Clean(NonBlank(lines[k]).value)
    {
      StrippedField(lines[k]);
    }
    CollectAll(lines, NonBlank, Clean);
  }

  lemma ParsedSaves(lines: seq<string>)
    requires All(lines, Clean)
    ensures All(Parsed(lines), Saves)
  {
    forall k | 0 <= k < |lines| && ParseLine(lines[k]).Some?
      ensures Saves(ParseLine(lines[k]).value)
    {
      SavesIntro(lines[k], ParseLine(lines[k]).value);
    }
    CollectAll(lines, ParseLine, Saves);
  }

  lemma SavesIntro(l: string, x: Shortcut)
    requires Clean(l) && ParseLine(l) == Some(x)
    ensures Saves(x)
  {
    ParseLineBody(l);
  }

  /** Every loaded shortcut reads back as itself once saved. */
  lemma LoadedSaves(file: Option<string>)
    ensures All(Load(file), Saves)
  {
    if file.Some? {
      var raw := Split(file.value, '\n');
      KeptClean(raw);
      ParsedSaves(Kept(raw));
    }
  }

  /** Saving what was loaded loses and changes nothing. */
  lemma ReloadIsStable(file: Option<string>)
    ensures Load(Some(Serialise(Load(file)))) == Load(file)
  {
    LoadedSaves(file);
    SerialiseLoads(Load(file));
  }

  // ---------------------------------------------------------------------------
  // Adding and deleting
  // ---------------------------------------------------------------------------

  /** Some shortcut of `xs` has this path and category. */
  predicate Has(xs: seq<Shortcut>, path: string, category: string)
  {
    exists k :: 0 <= k < |xs| && xs[k].path == path && xs[k].category == category
  }

  /** The shortcut the add dialog builds: stripped fields, with the defaults for empty ones. */
  function Entry(pathText: string, categoryText: string, aliasText: string): Shortcut
  {
    var path, category, alias := Strip(pathText), Strip(categoryText), Strip(aliasText);
    Shortcut(path, if category == [] then Uncategorised else category, if alias == [] then path else alias)
  }

  /** Input without bars in the path and category, and without newlines, builds an entry the store holds. */
  lemma EntryWellFormed(pathText: string, categoryText: string, aliasText: string)
    requires '|' !in pathText && '|' !in categoryText
    requires '\n' !in pathText && '\n' !in categoryText && '\n' !in aliasText
    ensures WellFormed(Entry(pathText, categoryText, aliasText))
  {
    var p, c, a := Strip(pathText), Strip(categoryText), Strip(aliasText);
    StrippedField(pathText);
    StrippedField(categoryText);
    StrippedField(aliasText);
    DefaultsWellFormed(p, c, a);
  }

  /** The defaults keep stripped, bar-free and newline-free fields well formed. */
  lemma DefaultsWellFormed(p: string, c: string, a: string)
    requires '|' !in p && '|' !in c && '\n' !in p && '\n' !in c && '\n' !in a
    requires Unpadded(p)
    requires a != [] ==> !IsSpace(a[|a| - 1])
    ensures WellFormed(Shortcut(p, if c == [] then Uncategorised else c, if a == [] then p else a))
  {
    assert '|' !in Uncategorised && '\n' !in Uncategorised;
  }

  /** What stripping keeps out of a field and how the result starts and ends. */
  lemma StrippedField(s: string)
    ensures '|' !in s ==> '|' !in Strip(s)
    ensures '\n' !in s ==> '\n' !in Strip(s)
    ensures Unpadded(Strip(s))
  {
    if '|' !in s { StripKeepsOut(s, '|'); }
    if '\n' !in s { StripKeepsOut(s, '\n'); }
    StripIdempotent(s);
  }

  /** The list with every shortcut of this path and category dropped, the rest in order. */
  function Remove(xs: seq<Shortcut>, path: string, category: string): (r: seq<Shortcut>)
    ensures |r| <= |xs|
    ensures forall y :: y in r <==> y in xs && !(y.path == path && y.category == category)
  {
    if xs == [] then []
    else (if xs[0].path == path && xs[0].category == category then [] else [xs[0]]) + Remove(xs[1..], path, category)
  }

  lemma {:induction false} RemoveAbsent(xs: seq<Shortcut>, path: string, category: string)
    requires !Has(xs, path, category)
    ensures Remove(xs, path, category) == xs
  {
    if xs != [] {
      assert !Has(xs[1..], path, category) by {
        forall k | 0 <= k < |xs[1..]| ensures !(xs[1..][k].path == path && xs[1..][k].category == category) {
          assert xs[1..][k] == xs[k + 1];
        }
      }
      RemoveAbsent(xs[1..], path, category);
      assert xs == [xs[0]] + xs[1..];
    }
  }

  lemma RemoveAll(xs: seq<Shortcut>, path: string, category: string, ok: Shortcut -> bool)
    requires All(xs, ok)
    ensures All(Remove(xs, path, category), ok)
  {
    var r := Remove(xs, path, category);
    forall k | 0 <= k < |r| ensures ok(r[k]) {
      assert r[k] in xs;
      var j :| 0 <= j < |xs| && xs[j] == r[k];
    }
  }

  /** After an accepted add the file loads as the old list plus the new entry, which is now a duplicate. */
  lemma AddedReadsBack(file: Option<string>, x: Shortcut)
    requires WellFormed(x)
    ensures Load(Some(Serialise(Load(file) + [x]))) == Load(file) + [x]
    ensures Has(Load(file) + [x], x.path, x.category)
  {
    var xs := Load(file) + [x];
    LoadedSaves(file);
    WellFormedSaves(x);
    AllAppend(Load(file), x, Saves);
    SerialiseLoads(xs);
    assert xs[|xs| - 1] == x;
  }

  /** After a confirmed delete the file loads as the old list without the selected path and category. */
  lemma DeletedReadsBack(file: Option<string>, path: string, category: string)
    ensures Load(Some(Serialise(Remove(Load(file), path, category)))) == Remove(Load(file), path, category)
    ensures !Has(Remove(Load(file), path, category), path, category)
  {
    var r := Remove(Load(file), path, category);
    LoadedSaves(file);
    RemoveAll(Load(file), path, category, Saves);
    SerialiseLoads(r);
    RemoveDrops(Load(file), path, category);
  }

  lemma RemoveDrops(xs: seq<Shortcut>, path: string, category: string)
    ensures !Has(Remove(xs, path, category), path, category)
  {
    var r := Remove(xs, path, category);
    forall k | 0 <= k < |r| ensures !(r[k].path == path && r[k].category == category) {
      assert r[k] in r;
    }
  }

  /** What the add dialog's OK button does. */
  datatype AddOutcome = EmptyPath | Duplicate(category: string) | Added(entry: Shortcut)

  class ShortcutDialog {
    /** The shortcut file's text; None while it does not exist. */
    var file: Option<string>

    constructor(file0: Option<string>)
      ensures file == file0
    {
      file := file0;
    }

    method LoadShortcuts() returns (xs: seq<Shortcut>)
      ensures xs == Load(file)
    {
      if file.None? {
        return [];
      }
      var lines := Kept(Split(file.value, '\n'));
      assert Load(file) == Parsed(lines);
      xs := [];
      var i := 0;
      while i < |lines|
        invariant 0 <= i <= |lines|
        invariant xs == Parsed(lines[..i])
      {
        ParsedStep(lines, i);
        var parsed := ParseLine(lines[i]);
        if parsed.Some? {
          xs := xs + [parsed.value];
        }
        i := i + 1;
      }
      assert lines[..i] == lines;
    }

    method SaveShortcuts(xs: seq<Shortcut>)
      modifies this
      ensures file == Some(Serialise(xs))
    {
      var text := "";
      var i := 0;
      while i < |xs|
        invariant 0 <= i <= |xs|
        invariant text == Serialise(xs[..i])
      {
        SerialiseAppend(xs[..i], xs[i]);
        assert xs[..i + 1] == xs[..i] + [xs[i]];
        text := text + xs[i].path + "|" + xs[i].category + "|" + xs[i].alias + "\n";
        i := i + 1;
      }
      assert xs[..i] == xs;
      file := Some(text);
    }

    /** The add dialog's OK handler: refuse an empty path or a duplicate, else append and save. */
    method HandleOk(pathText: string, categoryText: string, aliasText: string) returns (r: AddOutcome)
      modifies this
      ensures var x := Entry(pathText, categoryText, aliasText);
        && (x.path == [] ==> r == EmptyPath && file == old(file))
        && (x.path != [] && Has(Load(old(file)), x.path, x.category) ==>
              r == Duplicate(x.category) && file == old(file))
        && (x.path != [] && !Has(Load(old(file)), x.path, x.category) ==>
              r == Added(x) && file == Some(Serialise(Load(old(file)) + [x])))
    {
      var path := Strip(pathText);
      if path == [] {
        return EmptyPath;
      }
      var category := Strip(categoryText);
      if category == [] {
        category := Uncategorised;
      }
      var alias := Strip(aliasText);
      if alias == [] {
        alias := path;
      }
      var shortcuts := LoadShortcuts();
      if Has(shortcuts, path, category) {
        return Duplicate(category);
      }
      var x := Shortcut(path, category, alias);
      SaveShortcuts(shortcuts + [x]);
      r := Added(x);
    }

    /** The manage dialog's delete handler: with a selection and a confirmation, drop that path and category. */
    method DeleteSelected(selected: Option<Shortcut>, confirmed: bool)
      modifies this
      ensures selected.None? || !confirmed ==> file == old(file)
      ensures selected.Some? && confirmed ==>
        file == Some(Serialise(Remove(Load(old(file)), selected.value.path, selected.value.category)))
    {
      if selected.None? || !confirmed {
        return;
      }
      var all := LoadShortcuts();
      SaveShortcuts(Remove(all, selected.value.path, selected.value.category));
    }
  }

  // ---------------------------------------------------------------------------
  // Categories and opening
  // ---------------------------------------------------------------------------

  function CategoryColumn(xs: seq<Shortcut>): (cs: seq<string>)
    ensures |cs| == |xs| && forall k :: 0 <= k < |xs| ==> cs[k] == xs[k].category
  {
    if xs == [] then [] else [xs[0].category] + CategoryColumn(xs[1..])
  }

  /** The categories the add dialog offers: each used category once, in ascending order. */
  function Categories(xs: seq<Shortcut>): (r: seq<string>)
    ensures StrictlySorted(r)
    ensures forall c :: c in r <==> exists k :: 0 <= k < |xs| && xs[k].category == c
  {
    var cs := CategoryColumn(xs);
    var r := SortedDistinct(cs);
    assert forall c :: c in r <==> c in Elems(r);
    assert forall c :: c in cs <==> c in Elems(cs);
    r
  }

  /** How a shortcut is opened: a web address in the browser, anything else as a local file. */
  datatype Target = Url(address: string) | LocalFile(path: string)

  function OpenTarget(path: string): (t: Target)
    ensures t.Url? <==> StartsWith(path, "http://") || StartsWith(path, "https://")
    ensures t == Url(path) || t == LocalFile(path)
  {
    if StartsWith(path, "http://") || StartsWith(path, "https://") then Url(path) else LocalFile(path)
  }

  lemma OpenTargetExamples()
    ensures OpenTarget("https://github.com") == Url("https://github.com")
    ensures OpenTarget("http://a") == Url("http://a")
    ensures OpenTarget("C:\\Projects") == LocalFile("C:\\Projects")
    ensures OpenTarget("HTTP://A") == LocalFile("HTTP://A")
    ensures OpenTarget("https:/a") == LocalFile("https:/a")
  {
    assert "https://github.com"[..8] == "https://";
    assert "http://a"[..7] == "http://";
    assert "C:\\Projects"[0] != "http://"[0];
    assert "HTTP://A"[1] != "http://"[1];
    assert "https:/a"[7] != "https://"[7];
    assert "https:/a"[5] != "http://"[5];
  }
}
