/**
 * The table of backed-up paths and the restore map derived from it. The required items are
 * also the user-owned paths that conflict classification protects.
 */
module BackupItems {
  import opened Wrappers
  import opened Text

  /** One path the backup archive carries: where it lives in the project, where it sits in the
      archive, its label, whether the basic backup includes it, and an optional file pattern. */
  datatype BackupItem = BackupItem(
    src: string,
    dest: string,
    displayLabel: string,
    required: bool,
    pattern: Option<string>)

  const BACKUP_ITEMS: seq<BackupItem> := [
    BackupItem("src/content/blog", "content/blog", "博客文章", true, None),
    BackupItem("config/site.yaml", "config/site.yaml", "网站配置", true, None),
    BackupItem("src/pages", "pages", "独立页面", true, Some("*.md")),
    BackupItem("public/img", "img", "用户图片", true, None),
    BackupItem(".env", "env", "环境变量", true, None),
    BackupItem("public/favicon.ico", "favicon.ico", "网站图标", false, None),
    BackupItem("src/assets/lqips.json", "assets/lqips.json", "LQIP 数据", false, None),
    BackupItem("src/assets/similarities.json", "assets/similarities.json", "相似度数据", false, None),
    BackupItem("src/assets/summaries.json", "assets/summaries.json", "AI 摘要数据", false, None)
  ]

  /** `Object.fromEntries(items.map(i => [i.dest, i.src]))`: later entries win on a repeated key. */
  function FromEntries(items: seq<BackupItem>): (m: map<string, string>)
    ensures m.Keys == set x | x in Dests(items)
  {
    if items == [] then map[]
    else FromEntries(items[..|items| - 1])[items[|items| - 1].dest := items[|items| - 1].src]
  }

  /** Archive path to project path. */
  const RESTORE_MAP: map<string, string> := FromEntries(BACKUP_ITEMS)

  /** The archive paths, in table order. */
  function Dests(items: seq<BackupItem>): (d: seq<string>)
    ensures |d| == |items| && forall k :: 0 <= k < |items| ==> d[k] == items[k].dest
  {
    seq(|items|, k requires 0 <= k < |items| => items[k].dest)
  }

  /** The project paths of the required items, in table order. */
  function RequiredSources(items: seq<BackupItem>): (srcs: seq<string>)
    ensures forall p :: p in srcs <==> exists i :: i in items && i.required && i.src == p
  {
    if items == [] then []
    else (if items[0].required then [items[0].src] else []) + RequiredSources(items[1..])
  }

  /** With distinct archive paths, the restore map sends every item's archive path to its project path. */
  lemma {:induction false} FromEntriesInverts(items: seq<BackupItem>)
    requires NoDup(Dests(items))
    ensures forall k :: 0 <= k < |items| ==> FromEntries(items)[items[k].dest] == items[k].src
  {
    if items != [] {
      var init := items[..|items| - 1];
      assert Dests(init) == Dests(items)[..|items| - 1];
      FromEntriesInverts(init);
      forall k | 0 <= k < |init|
        ensures items[k].dest != items[|items| - 1].dest
      {
        assert Dests(items)[k] == items[k].dest;
      }
    }
  }

  /** Exactly five items are required, and they are the user-owned paths. */
  lemma RequiredItems()
    ensures RequiredSources(BACKUP_ITEMS) == ["src/content/blog", "config/site.yaml", "src/pages", "public/img", ".env"]
  {
  }

  /** The four extra items of a full backup are not required. */
  lemma FullOnlyItems()
    ensures forall k :: 5 <= k < |BACKUP_ITEMS| ==> !BACKUP_ITEMS[k].required
    ensures forall k :: 0 <= k < 5 ==> BACKUP_ITEMS[k].required
  {
  }

  /** The archive paths of the table. */
  lemma ArchivePaths()
    ensures Dests(BACKUP_ITEMS) == ["content/blog", "config/site.yaml", "pages", "img", "env", "favicon.ico",
      "assets/lqips.json", "assets/similarities.json", "assets/summaries.json"]
  {
  }

  /** No two items share an archive path. */
  lemma ArchivePathsDistinct()
    ensures NoDup(Dests(BACKUP_ITEMS))
  {
    ArchivePaths();
    var d: seq<string> := ["content/blog", "config/site.yaml", "pages", "img", "env", "favicon.ico",
      "assets/lqips.json", "assets/similarities.json", "assets/summaries.json"];
    assert |d[0]| == 12 && |d[1]| == 16 && |d[2]| == 5 && |d[3]| == 3 && |d[4]| == 3;
    assert |d[5]| == 11 && |d[6]| == 17 && |d[7]| == 24 && |d[8]| == 21;
    forall i, j | 0 <= i < j < |d| ensures d[i] != d[j] {
      if i == 3 && j == 4 {
        assert d[3][0] != d[4][0];
      } else {
        assert |d[i]| != |d[j]|;
      }
    }
  }

  /** The restore map has one entry per item and sends each archive path to the item's project path. */
  lemma RestoreMapInvertsItems()
    ensures |RESTORE_MAP| == |BACKUP_ITEMS|
    ensures forall i :: i in BACKUP_ITEMS ==> i.dest in RESTORE_MAP && RESTORE_MAP[i.dest] == i.src
  {
    ArchivePathsDistinct();
    FromEntriesInverts(BACKUP_ITEMS);
    var d := Dests(BACKUP_ITEMS);
    assert RESTORE_MAP.Keys == set x | x in d;
    NoDupCard(d);
  }

  /** Only `src/pages` restricts its files, to `*.md`. */
  lemma OnlyPagesHavePattern()
    ensures forall i :: i in BACKUP_ITEMS && i.pattern.Some? ==> i.src == "src/pages" && i.pattern == Some("*.md")
  {
  }
}
