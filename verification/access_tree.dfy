/** Navigation-tree pruning and menu-key selection of the dashboard
    (apps/dashboard/src/routes/utils.ts). */
module AccessTree {
  import opened Wrappers
  import opened Text
  import opened Collections

  /** A navigation entry. Labels and icons are React nodes; here they are
      plain strings (`caption` stands for `label`). `permission` and
      `children` are optional. */
  datatype NavItem = NavItem(
    key: string,
    caption: string,
    icon: Option<string>,
    permission: Option<string>,
    children: NavChildren)

  /** `children` of an entry: absent (`undefined`) or a possibly empty list. */
  datatype NavChildren = NoChildren | ChildList(entries: seq<NavItem>)

  /** The menu entry handed to the menu component. */
  datatype MenuItem = MenuItem(
    key: string,
    icon: Option<string>,
    caption: string,
    children: MenuChildren)

  datatype MenuChildren = NoSubmenu | Submenu(entries: seq<MenuItem>)

  /** `!item.permission || permissions.has(item.permission)`: a missing or
      empty permission is no restriction. */
  predicate Allowed(item: NavItem, perms: set<string>) {
    item.permission.None? || item.permission.value == "" || item.permission.value in perms
  }

  /** The fate of one entry: dropped, kept as a leaf (children cleared), or
      kept with its surviving children. */
  function Refine(item: NavItem, perms: set<string>): (r: Option<NavItem>)
    decreases item, 1
  {
    var kids := if item.children.ChildList? then Prune(item.children.entries, perms) else [];
    if |kids| > 0 then Some(item.(children := ChildList(kids)))
    else if Allowed(item, perms) then Some(item.(children := NoChildren))
    else None
  }

  /** The pruned list: the surviving entries in their original order. */
  function Prune(items: seq<NavItem>, perms: set<string>): (r: seq<NavItem>)
    decreases items, 0
  {
    if items == [] then []
    else
      assert items[0] in items;
      var rest := Prune(items[1..], perms);
      match Refine(items[0], perms)
      case Some(n) => [n] + rest
      case None => rest
  }

  /** Pruning distributes over concatenation. */
  lemma {:induction false} PruneAppend(a: seq<NavItem>, b: seq<NavItem>, perms: set<string>)
    ensures Prune(a + b, perms) == Prune(a, perms) + Prune(b, perms)
  {
    if a == [] {
      assert a + b == b;
    } else {
      assert (a + b)[0] == a[0];
      assert (a + b)[1..] == a[1..] + b;
      PruneAppend(a[1..], b, perms);
    }
  }

  /** filterNavItems as the source writes it: a loop that pushes surviving
      entries onto `result`, recursing into children first. */
  method FilterNavItems(items: seq<NavItem>, perms: set<string>) returns (result: seq<NavItem>)
    ensures result == Prune(items, perms)
    decreases items
  {
    result := [];
    for k := 0 to |items|
      invariant result == Prune(items[..k], perms)
    {
      var item := items[k];
      assert item in items;
      var children := NoChildren;
      if item.children.ChildList? {
        var filtered := FilterNavItems(item.children.entries, perms);
        children := ChildList(filtered);
      }
      var allowed := item.permission.None? || item.permission.value == "" || item.permission.value in perms;
      assert items[..k + 1] == items[..k] + [item];
      PruneAppend(items[..k], [item], perms);
      assert Prune([item], perms) == (match Refine(item, perms) case Some(n) => [n] case None => []) by {
        assert [item][1..] == [];
      }
      if children.ChildList? && |children.entries| > 0 {
        result := result + [item.(children := children)];
        continue;
      }
      if allowed {
        result := result + [item.(children := NoChildren)];
      }
    }
    assert items[..|items|] == items;
  }

  // ---------------------------------------------------------------------
  // What a pruned tree looks like

  /** Every entry either carries a non-empty, itself pruned list of children,
      or has no children and is allowed. */
  predicate Pruned(items: seq<NavItem>, perms: set<string>)
    decreases items
  {
    items == [] ||
    (assert items[0] in items;
     match items[0].children
     case ChildList(kids) => |kids| > 0 && Pruned(kids, perms) && Pruned(items[1..], perms)
     case NoChildren => Allowed(items[0], perms) && Pruned(items[1..], perms))
  }

  /** The output of Prune is pruned: no surviving entry lacks its permission
      unless it has surviving children. */
  lemma {:induction false} PruneIsPruned(items: seq<NavItem>, perms: set<string>)
    ensures Pruned(Prune(items, perms), perms)
    decreases items
  {
    if items != [] {
      assert items[0] in items;
      PruneIsPruned(items[1..], perms);
      var rest := Prune(items[1..], perms);
      match Refine(items[0], perms)
      case Some(n) =>
        assert ([n] + rest)[0] == n && ([n] + rest)[1..] == rest;
        if items[0].children.ChildList? {
          PruneIsPruned(items[0].children.entries, perms);
        }
      case None =>
    }
  }

  /** Pruning a pruned list changes nothing. */
  lemma {:induction false} PrunedIsFixed(items: seq<NavItem>, perms: set<string>)
    requires Pruned(items, perms)
    ensures Prune(items, perms) == items
    decreases items
  {
    if items != [] {
      assert items[0] in items;
      PrunedIsFixed(items[1..], perms);
      if items[0].children.ChildList? {
        PrunedIsFixed(items[0].children.entries, perms);
      }
      assert items == [items[0]] + items[1..];
    }
  }

  /** Filtering twice equals filtering once. */
  lemma PruneIdempotent(items: seq<NavItem>, perms: set<string>)
    ensures Prune(Prune(items, perms), perms) == Prune(items, perms)
  {
    PruneIsPruned(items, perms);
    PrunedIsFixed(Prune(items, perms), perms);
  }

  /** An entry with its children cleared, for comparing entries by identity. */
  function Bare(item: NavItem): NavItem { item.(children := NoChildren) }

  function Bares(items: seq<NavItem>): (r: seq<NavItem>)
    ensures |r| == |items|
  {
    seq(|items|, i requires 0 <= i < |items| => Bare(items[i]))
  }

  /** Sibling order is preserved and only entries of the input appear. */
  lemma {:induction false} PruneIsSubsequence(items: seq<NavItem>, perms: set<string>)
    ensures IsSubsequence(Bares(Prune(items, perms)), Bares(items))
  {
    if items != [] {
      PruneIsSubsequence(items[1..], perms);
      var rest := Prune(items[1..], perms);
      assert Bares(items)[1..] == Bares(items[1..]);
      match Refine(items[0], perms)
      case Some(n) =>
        assert Bares([n] + rest)[0] == Bare(items[0]);
        assert Bares([n] + rest)[1..] == Bares(rest);
      case None =>
        SubsequenceSkip(Bares(rest), Bares(items));
    }
  }

  /** `out` is `src` with entries deleted at every depth: the surviving
      entries keep their sibling order and their own fields, and each one
      has no children or children that embed in the original's. */
  predicate Embeds(out: seq<NavItem>, src: seq<NavItem>)
    decreases src
  {
    if out == [] then true
    else if src == [] then false
    else
      var o := out[0];
      var s := src[0];
      assert s in src;
      (Bare(o) == Bare(s) &&
       (o.children.NoChildren? ||
        (o.children.ChildList? && s.children.ChildList? && Embeds(o.children.entries, s.children.entries))) &&
       Embeds(out[1..], src[1..]))
      || Embeds(out, src[1..])
  }

  /** Pruning only deletes entries, at every depth of the tree. */
  lemma {:induction false} PruneEmbeds(items: seq<NavItem>, perms: set<string>)
    ensures Embeds(Prune(items, perms), items)
    decreases items
  {
    if items != [] {
      assert items[0] in items;
      PruneEmbeds(items[1..], perms);
      var rest := Prune(items[1..], perms);
      match Refine(items[0], perms)
      case Some(n) =>
        if items[0].children.ChildList? {
          PruneEmbeds(items[0].children.entries, perms);
        }
        assert ([n] + rest)[0] == n && ([n] + rest)[1..] == rest;
      case None =>
    }
  }

  // ---------------------------------------------------------------------
  // Menu items

  function ToMenuItem(item: NavItem): (m: MenuItem)
    ensures m.key == item.key && m.caption == item.caption && m.icon == item.icon
    ensures m.children.Submenu? <==> item.children.ChildList?
    decreases item
  {
    var children := if item.children.ChildList? then Submenu(ToMenuItems(item.children.entries)) else NoSubmenu;
    MenuItem(item.key, item.icon, item.caption, children)
  }

  function ToMenuItems(items: seq<NavItem>): (ms: seq<MenuItem>)
    ensures |ms| == |items|
    decreases items
  {
    seq(|items|, i requires 0 <= i < |items| => assert items[i] in items; ToMenuItem(items[i]))
  }

  /** buildMenuItems: one menu item per surviving entry, same key, label and
      icon, in the same order. */
  function BuildMenuItems(items: seq<NavItem>, perms: set<string>): (ms: seq<MenuItem>)
    ensures |ms| == |Prune(items, perms)|
    ensures forall i :: 0 <= i < |ms| ==> ms[i].key == Prune(items, perms)[i].key
  {
    ToMenuItems(Prune(items, perms))
  }

  // ---------------------------------------------------------------------
  // Selected menu key

  predicate Matches(pathname: string, key: string) { HasPrefix(pathname, key) }

  /** Index of the element a stable sort by decreasing length puts first
      among the keys that prefix the path: the earliest of the longest. */
  function BestMatch(pathname: string, keys: seq<string>): (r: Option<nat>)
    ensures r.None? <==> forall j :: 0 <= j < |keys| ==> !Matches(pathname, keys[j])
    ensures r.Some? ==> r.value < |keys| && Matches(pathname, keys[r.value])
    ensures r.Some? ==> forall j :: 0 <= j < |keys| && Matches(pathname, keys[j]) ==> |keys[j]| <= |keys[r.value]|
    ensures r.Some? ==> forall j :: 0 <= j < r.value && Matches(pathname, keys[j]) ==> |keys[j]| < |keys[r.value]|
    decreases |keys|
  {
    if keys == [] then None
    else
      var n := |keys| - 1;
      var b := BestMatch(pathname, keys[..n]);
      if Matches(pathname, keys[n]) && (b.None? || |keys[n]| > |keys[b.value]|) then Some(n) else b
  }

  /** resolveSelectedKey: the longest key prefixing the path (earliest on
      ties), else the first key; undefined only when there are no keys. */
  function ResolveSelectedKey(pathname: string, keys: seq<string>): (r: Option<string>)
    ensures r.None? <==> keys == []
    ensures r.Some? ==> r.value in keys
    ensures (exists j :: 0 <= j < |keys| && Matches(pathname, keys[j])) ==>
              r.Some? && Matches(pathname, r.value) &&
              forall j :: 0 <= j < |keys| && Matches(pathname, keys[j]) ==> |keys[j]| <= |r.value|
    ensures keys != [] && (forall j :: 0 <= j < |keys| ==> !Matches(pathname, keys[j])) ==> r == Some(keys[0])
  {
    match BestMatch(pathname, keys)
    case Some(i) => Some(keys[i])
    case None => if keys == [] then None else Some(keys[0])
  }
}
