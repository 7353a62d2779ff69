/**
 * The folder walk of the uploader, `gatherFiles` in backend/services.js.
 * The filesystem is not read here: the folder is given as a tree of items
 * in the order `fs.readdir` lists them, each file with the text that
 * `fs.readFile(…, "utf-8")` returns for it.
 */
module Files {

  /** A directory entry: a file with its text, or a directory with its own
      entries in listing order. */
  datatype Item =
    | File(name: string, content: string)
    | Directory(name: string, children: seq<Item>)

  /** The `{ path, content }` record that gatherFiles collects per file. */
  datatype FileEntry = FileEntry(path: string, content: string)

  /** `path.join(base, name)` for a plain name: the name alone under the
      empty base, otherwise the two joined by a slash. */
  function Join(base: string, name: string): string {
    if base == "" then name else base + "/" + name
  }

  /** A joined path ends with the name; under a non-empty base it is the
      base, a slash, then the name. */
  lemma JoinShape(base: string, name: string)
    ensures |name| <= |Join(base, name)|
    ensures Join(base, name)[|Join(base, name)| - |name|..] == name
    ensures base == "" ==> Join(base, name) == name
    ensures base != "" ==>
      && |Join(base, name)| == |base| + 1 + |name|
      && Join(base, name)[..|base|] == base
      && Join(base, name)[|base|] == '/'
  {
    var p := Join(base, name);
    if base != "" {
      assert p[..|base|] == base;
      assert p[|p| - |name|..] == name;
    }
  }

  /** The chain of names from the folder root joined onto `base`. */
  function JoinAll(base: string, chain: seq<string>): string
    decreases chain
  {
    if chain == [] then base else JoinAll(Join(base, chain[0]), chain[1..])
  }

  /** What gatherFiles collects from `items` listed under `base`: the
      entries of each item in listing order. */
  function Flatten(items: seq<Item>, base: string): seq<FileEntry>
    decreases items
  {
    if items == [] then []
    else Flatten(items[..|items| - 1], base) + ItemEntries(items[|items| - 1], base)
  }

  /** The entries one item contributes: one for a file, and the whole walk
      of a directory, spliced in where the directory stands. */
  function ItemEntries(item: Item, base: string): seq<FileEntry>
    decreases item
  {
    match item
    case File(name, content) => [FileEntry(Join(base, name), content)]
    case Directory(name, children) => Flatten(children, Join(base, name))
  }

  /** The number of files, at any depth, under `items`. */
  function FileCount(items: seq<Item>): nat
    decreases items
  {
    if items == [] then 0
    else
      var last := items[|items| - 1];
      FileCount(items[..|items| - 1]) + (if last.File? then 1 else FileCount(last.children))
  }

  /** Following the names in `chain` from `items` ends at a file whose
      text is `content`. */
  ghost predicate Reaches(items: seq<Item>, chain: seq<string>, content: string)
    decreases items
  {
    exists i | 0 <= i < |items| :: ItemReaches(items[i], chain, content)
  }

  ghost predicate ItemReaches(item: Item, chain: seq<string>, content: string)
    decreases item
  {
    && |chain| >= 1
    && chain[0] == item.name
    && match item
       case File(_, text) => |chain| == 1 && text == content
       case Directory(_, children) => Reaches(children, chain[1..], content)
  }

  /** gatherFiles: walks the items in listing order, pushing an entry for
      each file and splicing in the entries of each directory. */
  method GatherFiles(items: seq<Item>, basePath: string) returns (files: seq<FileEntry>)
    ensures files == Flatten(items, basePath)
    decreases items
  {
    files := [];
    for i := 0 to |items|
      invariant files == Flatten(items[..i], basePath)
    {
      var item := items[i];
      var relativePath := Join(basePath, item.name);
      if item.Directory? {
        var nested := GatherFiles(item.children, relativePath);
        files := files + nested;
      } else {
        files := files + [FileEntry(relativePath, item.content)];
      }
      assert items[..i + 1][..i] == items[..i];
    }
    assert items[..|items|] == items;
  }

  /** Walking a concatenation of listings is walking each in turn. */
  lemma {:induction false} FlattenAppend(a: seq<Item>, b: seq<Item>, base: string)
    ensures Flatten(a + b, base) == Flatten(a, base) + Flatten(b, base)
    decreases |b|
  {
    if b == [] {
      assert a + b == a;
    } else {
      var ab := a + b;
      assert ab[..|ab| - 1] == a + b[..|b| - 1];
      assert ab[|ab| - 1] == b[|b| - 1];
      FlattenAppend(a, b[..|b| - 1], base);
    }
  }

  /** The entries of the item at position i sit, whole, between those of
      the items listed before it and those listed after it. */
  lemma FlattenSplice(items: seq<Item>, base: string, i: nat)
    requires i < |items|
    ensures Flatten(items, base)
         == Flatten(items[..i], base) + ItemEntries(items[i], base) + Flatten(items[i + 1..], base)
  {
    assert items == items[..i] + [items[i]] + items[i + 1..];
    FlattenAppend(items[..i] + [items[i]], items[i + 1..], base);
    FlattenAppend(items[..i], [items[i]], base);
    assert [items[i]][..0] == [];
  }

  /** One entry per file and none per directory. */
  lemma {:induction false} FlattenCount(items: seq<Item>, base: string)
    ensures |Flatten(items, base)| == FileCount(items)
    decreases items
  {
    if items != [] {
      var last := items[|items| - 1];
      FlattenCount(items[..|items| - 1], base);
      if last.Directory? {
        FlattenCount(last.children, Join(base, last.name));
      }
    }
  }

  /** Every entry is a file reached by a chain of names from the root; its
      path is that chain joined onto the base and its content the file's text. */
  lemma {:induction false} FlattenSound(items: seq<Item>, base: string, k: nat)
    requires k < |Flatten(items, base)|
    ensures exists chain :: Reaches(items, chain, Flatten(items, base)[k].content)
                         && Flatten(items, base)[k].path == JoinAll(base, chain)
    decreases items
  {
    var init, last := items[..|items| - 1], items[|items| - 1];
    var e := Flatten(items, base)[k];
    if k < |Flatten(init, base)| {
      FlattenSound(init, base, k);
      var chain :| Reaches(init, chain, e.content) && e.path == JoinAll(base, chain);
      var i :| 0 <= i < |init| && ItemReaches(init[i], chain, e.content);
      assert items[i] == init[i];
      assert Reaches(items, chain, e.content);
    } else {
      ItemEntriesSound(last, base, k - |Flatten(init, base)|);
      var chain :| ItemReaches(last, chain, e.content) && e.path == JoinAll(base, chain);
      assert Reaches(items, chain, e.content);
    }
  }

  lemma {:induction false} ItemEntriesSound(item: Item, base: string, k: nat)
    requires k < |ItemEntries(item, base)|
    ensures exists chain :: ItemReaches(item, chain, ItemEntries(item, base)[k].content)
                         && ItemEntries(item, base)[k].path == JoinAll(base, chain)
    decreases item
  {
    var e := ItemEntries(item, base)[k];
    match item
    case File(name, _) =>
      assert ItemReaches(item, [name], e.content) && e.path == JoinAll(base, [name]);
    case Directory(name, children) =>
      FlattenSound(children, Join(base, name), k);
      var rest :| Reaches(children, rest, e.content) && e.path == JoinAll(Join(base, name), rest);
      var chain := [name] + rest;
      assert chain[1..] == rest;
      assert ItemReaches(item, chain, e.content) && e.path == JoinAll(base, chain);
  }

  /** Every file reached by a chain of names from the root has an entry,
      at that chain joined onto the base, holding its text. */
  lemma {:induction false} FlattenComplete(items: seq<Item>, base: string, chain: seq<string>, content: string)
    requires Reaches(items, chain, content)
    ensures FileEntry(JoinAll(base, chain), content) in Flatten(items, base)
    decreases items
  {
    var i :| 0 <= i < |items| && ItemReaches(items[i], chain, content);
    var init := items[..|items| - 1];
    if i == |items| - 1 {
      ItemEntriesComplete(items[i], base, chain, content);
    } else {
      assert init[i] == items[i];
      FlattenComplete(init, base, chain, content);
    }
  }

  lemma {:induction false} ItemEntriesComplete(item: Item, base: string, chain: seq<string>, content: string)
    requires ItemReaches(item, chain, content)
    ensures FileEntry(JoinAll(base, chain), content) in ItemEntries(item, base)
    decreases item
  {
    match item
    case File(name, _) =>
    case Directory(name, children) =>
      FlattenComplete(children, Join(base, name), chain[1..], content);
  }
}
