/*
 * The context menu's two computed parts: the checkable mode entries, of
 * which the one for the current mode is checked, and the shortcut submenu,
 * which groups the stored shortcuts by category, one submenu per category in
 * ascending order, each listing its shortcuts in file order, or shows a
 * disabled placeholder when there are none. The fixed entries (settings,
 * reset, about, tray, quit) only connect signals and are not modelled.
 */
module Menu {
  import opened Text
  import opened Shortcuts
  import Mode

  // ---------------------------------------------------------------------------
  // Mode entries
  // ---------------------------------------------------------------------------

  datatype ModeItem = ModeItem(name: string, caption: string, checked: bool)

  /** The mode names with their menu labels, in menu order. */
  const ModeLabels: seq<(string, string)> := [("normal", "普通模式"), ("slide", "幻灯片模式"), ("cow", "牛马模式")]

  /** The mode entries, each checked when the manager's mode is its name. */
  function ModeItems(current: string): seq<ModeItem>
  {
    seq(|ModeLabels|, k requires 0 <= k < |ModeLabels| =>
      ModeItem(ModeLabels[k].0, ModeLabels[k].1, ModeLabels[k].0 == current))
  }

  /**
   * The entries cover exactly the known modes, and an entry is checked
   * exactly when it names the current mode: one entry for a known mode,
   * none otherwise.
   */
  lemma ModeItemsCheckCurrent(current: string)
    ensures |ModeItems(current)| == 3
    ensures forall k :: 0 <= k < 3 ==> Mode.Known(ModeItems(current)[k].name)
    ensures forall k :: 0 <= k < 3 ==> (ModeItems(current)[k].checked <==> ModeItems(current)[k].name == current)
    ensures Mode.Known(current) <==> exists k :: 0 <= k < 3 && ModeItems(current)[k].checked
    ensures forall j, k :: 0 <= j < k < 3 ==> !(ModeItems(current)[j].checked && ModeItems(current)[k].checked)
  {
    var items := ModeItems(current);
    assert items[0].name == "normal" && items[1].name == "slide" && items[2].name == "cow";
    if current == "normal" {
      assert items[0].checked;
    } else if current == "slide" {
      assert items[1].checked;
    } else if current == "cow" {
      assert items[2].checked;
    }
  }

  // ---------------------------------------------------------------------------
  // Shortcut submenu
  // ---------------------------------------------------------------------------

  /** A menu action titled with the alias that opens the path. */
  datatype Action = Open(alias: string, path: string)

  datatype MenuEntry = Submenu(title: string, actions: seq<Action>) | Placeholder(caption: string, enabled: bool)

  const EmptyLabel: string := "（暂无快捷入口）"

  function ActionOf(x: Shortcut): Action
  {
    Open(x.alias, x.path)
  }

  /** The actions of the shortcuts in category `c`, in list order. */
  function Group(xs: seq<Shortcut>, c: string): seq<Action>
  {
    if xs == [] then []
    else (if xs[0].category == c then [ActionOf(xs[0])] else []) + Group(xs[1..], c)
  }

  /** The shortcut submenu the menu shows for the loaded shortcuts. */
  function ShortcutMenu(xs: seq<Shortcut>): seq<MenuEntry>
  {
    if xs == [] then [Placeholder(EmptyLabel, false)]
    else
      var cats := Categories(xs);
      seq(|cats|, j requires 0 <= j < |cats| => Submenu(cats[j], Group(xs, cats[j])))
  }

  lemma {:induction false} GroupAppend(xs: seq<Shortcut>, x: Shortcut, c: string)
    ensures Group(xs + [x], c) == Group(xs, c) + if x.category == c then [ActionOf(x)] else []
  {
    var tail: seq<Action> := if x.category == c then [ActionOf(x)] else [];
    if xs == [] {
      assert xs + [x] == [x];
      assert [x][1..] == [];
    } else {
      var ys := xs + [x];
      var head: seq<Action> := if xs[0].category == c then [ActionOf(xs[0])] else [];
      assert ys[0] == xs[0] && ys[1..] == xs[1..] + [x];
      assert Group(ys, c) == head + Group(xs[1..] + [x], c);
      GroupAppend(xs[1..], x, c);
      assert Group(xs, c) == head + Group(xs[1..], c);
    }
  }

  /** A shortcut's action is in its category's group. */
  lemma {:induction false} GroupContains(xs: seq<Shortcut>, k: nat)
    requires k < |xs|
    ensures ActionOf(xs[k]) in Group(xs, xs[k].category)
  {
    if k > 0 {
      GroupContains(xs[1..], k - 1);
      assert xs[1..][k - 1] == xs[k];
    }
  }

  /** Every action of a group comes from a shortcut of that category. */
  lemma {:induction false} GroupFrom(xs: seq<Shortcut>, c: string, a: Action)
    requires a in Group(xs, c)
    ensures exists k :: 0 <= k < |xs| && xs[k].category == c && ActionOf(xs[k]) == a
  {
    var head: seq<Action> := if xs[0].category == c then [ActionOf(xs[0])] else [];
    assert Group(xs, c) == head + Group(xs[1..], c);
    if a !in head {
      GroupFrom(xs[1..], c, a);
      var k :| 0 <= k < |xs[1..]| && xs[1..][k].category == c && ActionOf(xs[1..][k]) == a;
      assert xs[k + 1] == xs[1..][k];
    }
  }

  /** A category no shortcut has has an empty group. */
  lemma {:induction false} GroupAbsent(xs: seq<Shortcut>, c: string)
    requires forall k :: 0 <= k < |xs| ==> xs[k].category != c
    ensures Group(xs, c) == []
  {
    if xs != [] {
      assert forall k :: 0 <= k < |xs[1..]| ==> xs[1..][k] == xs[k + 1];
      GroupAbsent(xs[1..], c);
    }
  }

  /** Without shortcuts the submenu is the disabled placeholder alone; with them, one entry per category, titled in strictly ascending order. */
  lemma ShortcutMenuSorted(xs: seq<Shortcut>)
    ensures xs == [] ==> ShortcutMenu(xs) == [Placeholder(EmptyLabel, false)]
    ensures xs != [] ==> forall j :: 0 <= j < |ShortcutMenu(xs)| ==> ShortcutMenu(xs)[j].Submenu?
    ensures xs != [] ==> forall i, j :: 0 <= i < j < |ShortcutMenu(xs)| ==>
      Below(ShortcutMenu(xs)[i].title, ShortcutMenu(xs)[j].title)
  {
  }

  /** Each shortcut's action sits in the entry of its category. */
  lemma ShortcutMenuListsEvery(xs: seq<Shortcut>, k: nat)
    requires k < |xs|
    ensures exists j :: (0 <= j < |ShortcutMenu(xs)| &&
      ShortcutMenu(xs)[j] == Submenu(xs[k].category, Group(xs, xs[k].category)) &&
      ActionOf(xs[k]) in ShortcutMenu(xs)[j].actions)
  {
    var cats := Categories(xs);
    var m := ShortcutMenu(xs);
    assert xs[k].category in cats;
    var j :| 0 <= j < |cats| && cats[j] == xs[k].category;
    GroupContains(xs, k);
    assert m[j] == Submenu(cats[j], Group(xs, cats[j]));
  }

  /** A category has a non-empty group exactly when some shortcut has it. */
  lemma GroupNonEmpty(xs: seq<Shortcut>, c: string)
    ensures Group(xs, c) != [] <==> exists k :: 0 <= k < |xs| && xs[k].category == c
  {
    if Group(xs, c) != [] {
      GroupFrom(xs, c, Group(xs, c)[0]);
    }
    if exists k :: 0 <= k < |xs| && xs[k].category == c {
      var k :| 0 <= k < |xs| && xs[k].category == c;
      GroupContains(xs, k);
    }
  }

  /** The dictionary the menu fills: one key per category, holding that category's actions in order. */
  method GroupByCategory(xs: seq<Shortcut>) returns (grouped: map<string, seq<Action>>)
    ensures forall c :: c in grouped <==> exists k :: 0 <= k < |xs| && xs[k].category == c
    ensures forall c :: c in grouped ==> grouped[c] == Group(xs, c)
  {
    grouped := map[];
    var i := 0;
    while i < |xs|
      invariant 0 <= i <= |xs|
      invariant forall c :: c in grouped <==> Group(xs[..i], c) != []
      invariant forall c :: c in grouped ==> grouped[c] == Group(xs[..i], c)
    {
      var x := xs[i];
      var before := if x.category in grouped then grouped[x.category] else [];
      assert before == Group(xs[..i], x.category);
      grouped := grouped[x.category := before + [ActionOf(x)]];
      assert xs[..i + 1] == xs[..i] + [x];
      forall c ensures Group(xs[..i + 1], c) == Group(xs[..i], c) + if x.category == c then [ActionOf(x)] else [] {
        GroupAppend(xs[..i], x, c);
      }
      i := i + 1;
    }
    assert xs[..i] == xs;
    forall c ensures Group(xs, c) != [] <==> exists k :: 0 <= k < |xs| && xs[k].category == c {
      GroupNonEmpty(xs, c);
    }
  }

  /** With shortcuts, the submenu's entries are the categories' groups, one by one. */
  lemma ShortcutMenuEntries(xs: seq<Shortcut>, entries: seq<MenuEntry>)
    requires xs != []
    requires |entries| == |Categories(xs)|
    requires forall t :: 0 <= t < |entries| ==> entries[t] == Submenu(Categories(xs)[t], Group(xs, Categories(xs)[t]))
    ensures entries == ShortcutMenu(xs)
  {
  }

  /** Building the submenu as the menu does: group into a dictionary, then list the sorted keys. */
  method BuildShortcutMenu(xs: seq<Shortcut>) returns (entries: seq<MenuEntry>)
    ensures entries == ShortcutMenu(xs)
  {
    if xs == [] {
      return [Placeholder(EmptyLabel, false)];
    }
    var grouped := GroupByCategory(xs);
    var keys := Categories(xs);
    entries := [];
    var j := 0;
    while j < |keys|
      invariant 0 <= j <= |keys|
      invariant |entries| == j
      invariant forall t :: 0 <= t < j ==> entries[t] == Submenu(keys[t], Group(xs, keys[t]))
    {
      var c := keys[j];
      assert c in grouped by {
        assert c in keys;
      }
      entries := entries + [Submenu(c, grouped[c])];
      j := j + 1;
    }
    ShortcutMenuEntries(xs, entries);
  }
}
