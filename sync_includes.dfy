/**
 * The deploy tool's rsync filter builder: from the parsed includes file
 * (a list of excluded paths and a list of included entries) it builds the
 * `--include=` rules handed to rsync, optionally limited to one package.
 *
 * An include entry is a path string, a mapping from folders to their
 * subfolder lists (a YAML mapping, kept in document order), or any other
 * YAML value, which the builder ignores.
 */
module SyncIncludes {

  import opened Common

  datatype FolderItem = FolderItem(folder: string, subfolders: seq<string>)

  datatype IncludeEntry =
    | Folders(items: seq<FolderItem>)
    | PathEntry(path: string)
    | OtherEntry

  const ExcludePrefix := "--include=- "
  const IncludePrefix := "--include=+ "
  const CatchAll := "--include=- *"

  // ---------------------------------------------------------------------
  // What each part of the input contributes
  // ---------------------------------------------------------------------

  function ExcludeRules(exclude: seq<string>): (r: seq<string>)
    ensures |r| == |exclude|
    ensures forall i :: 0 <= i < |exclude| ==> r[i] == ExcludePrefix + exclude[i]
  {
    seq(|exclude|, i requires 0 <= i < |exclude| => ExcludePrefix + exclude[i])
  }

  /** The two rules that sync one subfolder of a folder and everything below it. */
  function SubfolderRules(folder: string, subfolders: seq<string>): seq<string>
    decreases |subfolders|
  {
    if subfolders == [] then []
    else [IncludePrefix + folder + "/" + subfolders[0], IncludePrefix + folder + "/" + subfolders[0] + "/**"]
         + SubfolderRules(folder, subfolders[1..])
  }

  /** The rules for one folder of a mapping entry. */
  function FolderItemRules(item: FolderItem, package: string): seq<string> {
    if package == "" then
      [IncludePrefix + item.folder] + SubfolderRules(item.folder, item.subfolders)
    else if package in item.subfolders then
      [IncludePrefix + item.folder, IncludePrefix + item.folder + "/" + package,
       IncludePrefix + item.folder + "/" + package + "/**"]
    else []
  }

  function FolderItemsRules(items: seq<FolderItem>, package: string): seq<string>
    decreases |items|
  {
    if items == [] then [] else FolderItemRules(items[0], package) + FolderItemsRules(items[1..], package)
  }

  function EntryRules(entry: IncludeEntry, package: string): seq<string> {
    match entry
    case Folders(items) => FolderItemsRules(items, package)
    case PathEntry(path) =>
      if package == "" || package == path then [IncludePrefix + path, IncludePrefix + path + "/**"] else []
    case OtherEntry => []
  }

  function IncludeRules(entries: seq<IncludeEntry>, package: string): seq<string>
    decreases |entries|
  {
    if entries == [] then [] else EntryRules(entries[0], package) + IncludeRules(entries[1..], package)
  }

  /** The whole filter list: the exclude rules, the include rules, and the final catch-all exclude. */
  function Includes(exclude: seq<string>, entries: seq<IncludeEntry>, package: string): seq<string> {
    ExcludeRules(exclude) + IncludeRules(entries, package) + [CatchAll]
  }

  // ---------------------------------------------------------------------
  // The builder as the source writes it: appends inside nested loops
  // ---------------------------------------------------------------------

  /** The rules for one folder of a mapping entry, appended one by one. */
  method FolderItemIncludes(item: FolderItem, package: string) returns (itemRules: seq<string>)
    ensures itemRules == FolderItemRules(item, package)
  {
    var folder, subfolders := item.folder, item.subfolders;
    itemRules := [];
    if package == "" {
      itemRules := itemRules + [IncludePrefix + folder];
      for j := 0 to |subfolders|
        invariant itemRules == [IncludePrefix + folder] + SubfolderRules(folder, subfolders[..j])
      {
        itemRules := itemRules + [IncludePrefix + folder + "/" + subfolders[j]];
        itemRules := itemRules + [IncludePrefix + folder + "/" + subfolders[j] + "/**"];
        SubfolderRulesSnoc(folder, subfolders[..j], subfolders[j]);
        assert subfolders[..j + 1] == subfolders[..j] + [subfolders[j]];
      }
      assert subfolders[..|subfolders|] == subfolders;
    } else if package in subfolders {
      itemRules := itemRules + [IncludePrefix + folder];
      itemRules := itemRules + [IncludePrefix + folder + "/" + package];
      itemRules := itemRules + [IncludePrefix + folder + "/" + package + "/**"];
    }
  }

  /** The rules for one include entry, appended one by one. */
  method EntryIncludes(entry: IncludeEntry, package: string) returns (rules: seq<string>)
    ensures rules == EntryRules(entry, package)
  {
    rules := [];
    match entry {
      case Folders(items) =>
        for k := 0 to |items|
          invariant rules == FolderItemsRules(items[..k], package)
        {
          var itemRules := FolderItemIncludes(items[k], package);
          rules := rules + itemRules;
          FolderItemsRulesSnoc(items[..k], items[k], package);
          assert items[..k + 1] == items[..k] + [items[k]];
        }
        assert items[..|items|] == items;
      case PathEntry(path) =>
        if package == "" || package == path {
          rules := rules + [IncludePrefix + path];
          rules := rules + [IncludePrefix + path + "/**"];
        }
      case OtherEntry =>
    }
  }

  method GetIncludesFromFile(exclude: seq<string>, entries: seq<IncludeEntry>, package: string)
    returns (includes: seq<string>)
    ensures includes == Includes(exclude, entries, package)
  {
    includes := [];
    for i := 0 to |exclude|
      invariant includes == ExcludeRules(exclude[..i])
    {
      includes := includes + [ExcludePrefix + exclude[i]];
      ExcludeRulesSnoc(exclude, i);
    }
    assert exclude[..|exclude|] == exclude;
    for i := 0 to |entries|
      invariant includes == ExcludeRules(exclude) + IncludeRules(entries[..i], package)
    {
      var rules := EntryIncludes(entries[i], package);
      IncludeRulesStep(entries, i, package);
      AppendAssoc(ExcludeRules(exclude), IncludeRules(entries[..i], package), rules);
      includes := includes + rules;
    }
    assert entries[..|entries|] == entries;
    includes := includes + [CatchAll];
  }

  lemma ExcludeRulesSnoc(exclude: seq<string>, i: nat)
    requires i < |exclude|
    ensures ExcludeRules(exclude[..i + 1]) == ExcludeRules(exclude[..i]) + [ExcludePrefix + exclude[i]]
  {
    assert ExcludeRules(exclude[..i + 1])[i] == ExcludePrefix + exclude[i];
  }

  lemma IncludeRulesStep(entries: seq<IncludeEntry>, i: nat, package: string)
    requires i < |entries|
    ensures IncludeRules(entries[..i + 1], package) == IncludeRules(entries[..i], package) + EntryRules(entries[i], package)
  {
    assert entries[..i + 1] == entries[..i] + [entries[i]];
    IncludeRulesSnoc(entries[..i], entries[i], package);
  }

  lemma {:induction false} SubfolderRulesSnoc(folder: string, subs: seq<string>, sub: string)
    ensures SubfolderRules(folder, subs + [sub]) ==
            SubfolderRules(folder, subs) + [IncludePrefix + folder + "/" + sub, IncludePrefix + folder + "/" + sub + "/**"]
    decreases |subs|
  {
    if subs != [] {
      assert (subs + [sub])[1..] == subs[1..] + [sub];
      SubfolderRulesSnoc(folder, subs[1..], sub);
    }
  }

  lemma {:induction false} FolderItemsRulesSnoc(items: seq<FolderItem>, item: FolderItem, package: string)
    ensures FolderItemsRules(items + [item], package) == FolderItemsRules(items, package) + FolderItemRules(item, package)
    decreases |items|
  {
    if items != [] {
      assert (items + [item])[1..] == items[1..] + [item];
      FolderItemsRulesSnoc(items[1..], item, package);
    }
  }

  lemma {:induction false} IncludeRulesSnoc(entries: seq<IncludeEntry>, entry: IncludeEntry, package: string)
    ensures IncludeRules(entries + [entry], package) == IncludeRules(entries, package) + EntryRules(entry, package)
    decreases |entries|
  {
    if entries != [] {
      assert (entries + [entry])[1..] == entries[1..] + [entry];
      IncludeRulesSnoc(entries[1..], entry, package);
    }
  }

  // ---------------------------------------------------------------------
  // Properties of the filter list
  // ---------------------------------------------------------------------

  /** A rule that adds files, as opposed to one that excludes them. */
  predicate IsIncludeRule(rule: string) {
    |IncludePrefix| <= |rule| && rule[..|IncludePrefix|] == IncludePrefix
  }

  lemma PrefixedIsIncludeRule(rest: string)
    ensures IsIncludeRule(IncludePrefix + rest)
  {
    assert (IncludePrefix + rest)[..|IncludePrefix|] == IncludePrefix;
  }

  lemma {:induction false} SubfolderRulesAreIncludes(folder: string, subs: seq<string>)
    ensures forall k :: 0 <= k < |SubfolderRules(folder, subs)| ==> IsIncludeRule(SubfolderRules(folder, subs)[k])
    decreases |subs|
  {
    if subs != [] {
      SubfolderRulesAreIncludes(folder, subs[1..]);
      PrefixedIsIncludeRule(folder + "/" + subs[0]);
      PrefixedIsIncludeRule(folder + "/" + subs[0] + "/**");
      assert IncludePrefix + folder + "/" + subs[0] == IncludePrefix + (folder + "/" + subs[0]);
      assert IncludePrefix + folder + "/" + subs[0] + "/**" == IncludePrefix + (folder + "/" + subs[0] + "/**");
    }
  }

  lemma FolderItemRulesAreIncludes(item: FolderItem, package: string)
    ensures forall k :: 0 <= k < |FolderItemRules(item, package)| ==> IsIncludeRule(FolderItemRules(item, package)[k])
  {
    PrefixedIsIncludeRule(item.folder);
    SubfolderRulesAreIncludes(item.folder, item.subfolders);
    PrefixedIsIncludeRule(item.folder + "/" + package);
    PrefixedIsIncludeRule(item.folder + "/" + package + "/**");
    assert IncludePrefix + item.folder + "/" + package == IncludePrefix + (item.folder + "/" + package);
    assert IncludePrefix + item.folder + "/" + package + "/**" == IncludePrefix + (item.folder + "/" + package + "/**");
  }

  lemma {:induction false} IncludeRulesAreIncludes(entries: seq<IncludeEntry>, package: string)
    ensures forall k :: 0 <= k < |IncludeRules(entries, package)| ==> IsIncludeRule(IncludeRules(entries, package)[k])
    decreases |entries|
  {
    if entries != [] {
      IncludeRulesAreIncludes(entries[1..], package);
      match entries[0]
      case Folders(items) => FolderItemsRulesAreIncludes(items, package);
      case PathEntry(path) =>
        PrefixedIsIncludeRule(path);
        PrefixedIsIncludeRule(path + "/**");
        assert IncludePrefix + path + "/**" == IncludePrefix + (path + "/**");
      case OtherEntry =>
    }
  }

  lemma {:induction false} FolderItemsRulesAreIncludes(items: seq<FolderItem>, package: string)
    ensures forall k :: 0 <= k < |FolderItemsRules(items, package)| ==> IsIncludeRule(FolderItemsRules(items, package)[k])
    decreases |items|
  {
    if items != [] {
      FolderItemRulesAreIncludes(items[0], package);
      FolderItemsRulesAreIncludes(items[1..], package);
    }
  }

  /**
   * The shape of the whole list: first one exclude rule per excluded path,
   * in the file's order; then only entries rules; and last the catch-all
   * exclude, whatever the input.
   */
  lemma IncludesShape(exclude: seq<string>, entries: seq<IncludeEntry>, package: string)
    ensures var r := Includes(exclude, entries, package);
      && |r| >= |exclude| + 1
      && (forall i :: 0 <= i < |exclude| ==> r[i] == ExcludePrefix + exclude[i])
      && (forall i :: |exclude| <= i < |r| - 1 ==> IsIncludeRule(r[i]))
      && r[|r| - 1] == CatchAll
  {
    var r := Includes(exclude, entries, package);
    IncludeRulesAreIncludes(entries, package);
    forall i | |exclude| <= i < |r| - 1
      ensures IsIncludeRule(r[i])
    {
      assert r[i] == IncludeRules(entries, package)[i - |exclude|];
    }
  }

  /**
   * A mapping entry without a package filter: the folder itself, then for
   * each subfolder in order the subfolder and everything below it.
   */
  lemma {:induction false} UnfilteredFolderRules(item: FolderItem)
    ensures var r := FolderItemRules(item, "");
      && |r| == 1 + 2 * |item.subfolders|
      && r[0] == IncludePrefix + item.folder
      && forall j :: 0 <= j < |item.subfolders| ==>
           r[1 + 2 * j] == IncludePrefix + item.folder + "/" + item.subfolders[j] &&
           r[2 + 2 * j] == IncludePrefix + item.folder + "/" + item.subfolders[j] + "/**"
  {
    SubfolderRulesAt(item.folder, item.subfolders);
  }

  lemma {:induction false} SubfolderRulesAt(folder: string, subs: seq<string>)
    ensures var r := SubfolderRules(folder, subs);
      && |r| == 2 * |subs|
      && forall j :: 0 <= j < |subs| ==>
           r[2 * j] == IncludePrefix + folder + "/" + subs[j] &&
           r[2 * j + 1] == IncludePrefix + folder + "/" + subs[j] + "/**"
    decreases |subs|
  {
    if subs != [] {
      SubfolderRulesAt(folder, subs[1..]);
      var r := SubfolderRules(folder, subs);
      var tail := SubfolderRules(folder, subs[1..]);
      forall j | 1 <= j < |subs|
        ensures r[2 * j] == IncludePrefix + folder + "/" + subs[j]
        ensures r[2 * j + 1] == IncludePrefix + folder + "/" + subs[j] + "/**"
      {
        assert r[2 * j] == tail[2 * (j - 1)];
        assert r[2 * j + 1] == tail[2 * (j - 1) + 1];
      }
    }
  }

  // ---------------------------------------------------------------------
  // Counting the rules
  // ---------------------------------------------------------------------

  /** How many rules one entry should yield, counted from the entry alone. */
  function EntryCount(entry: IncludeEntry, package: string): nat {
    match entry
    case Folders(items) => FoldersCount(items, package)
    case PathEntry(path) => if package == "" || package == path then 2 else 0
    case OtherEntry => 0
  }

  function FoldersCount(items: seq<FolderItem>, package: string): nat
    decreases |items|
  {
    if items == [] then 0
    else
      (if package == "" then 1 + 2 * |items[0].subfolders|
       else if package in items[0].subfolders then 3
       else 0)
      + FoldersCount(items[1..], package)
  }

  function EntriesCount(entries: seq<IncludeEntry>, package: string): nat
    decreases |entries|
  {
    if entries == [] then 0 else EntryCount(entries[0], package) + EntriesCount(entries[1..], package)
  }

  /** The list has one rule per exclude, the counted rules of every entries entry, and the catch-all. */
  lemma IncludesLength(exclude: seq<string>, entries: seq<IncludeEntry>, package: string)
    ensures |Includes(exclude, entries, package)| == |exclude| + EntriesCount(entries, package) + 1
  {
    IncludeRulesLength(entries, package);
  }

  lemma {:induction false} IncludeRulesLength(entries: seq<IncludeEntry>, package: string)
    ensures |IncludeRules(entries, package)| == EntriesCount(entries, package)
    decreases |entries|
  {
    if entries != [] {
      IncludeRulesLength(entries[1..], package);
      if entries[0].Folders? {
        FolderItemsRulesLength(entries[0].items, package);
      }
    }
  }

  lemma {:induction false} FolderItemsRulesLength(items: seq<FolderItem>, package: string)
    ensures |FolderItemsRules(items, package)| == FoldersCount(items, package)
    decreases |items|
  {
    if items != [] {
      FolderItemsRulesLength(items[1..], package);
      if package == "" {
        SubfolderRulesAt(items[0].folder, items[0].subfolders);
      }
    }
  }

  /**
   * With a package filter, a mapping entry whose subfolders do not hold the
   * package contributes nothing, and one whose subfolders do contributes
   * exactly the folder, the package subfolder and everything below it, for
   * each of its folders that lists the package.
   */
  lemma FilteredFolderRules(item: FolderItem, package: string)
    requires package != ""
    ensures package !in item.subfolders ==> FolderItemRules(item, package) == []
    ensures package in item.subfolders ==>
      FolderItemRules(item, package) ==
        [IncludePrefix + item.folder, IncludePrefix + item.folder + "/" + package,
         IncludePrefix + item.folder + "/" + package + "/**"]
  {
  }

  /**
   * A path entry contributes a rule for the path and one for everything
   * below it exactly when no package filter is set or the filter names that
   * path; otherwise it contributes nothing.
   */
  lemma PathEntryRules(path: string, package: string)
    ensures |EntryRules(PathEntry(path), package)| == (if package == "" || package == path then 2 else 0)
    ensures package == "" || package == path ==>
      EntryRules(PathEntry(path), package)[0] == IncludePrefix + path &&
      EntryRules(PathEntry(path), package)[1] == IncludePrefix + path + "/**"
  {
  }
}
