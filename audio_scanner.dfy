/**
 * `AudioScanner.getFolderPlaylists`: the scanned songs grouped by parent
 * directory (in order of first appearance, each group in scan order), one
 * playlist per folder, empty ones dropped, then stably sorted by folder name.
 *
 * Paths are absolute, already normalised `/`-separated strings; the parent
 * and name follow `java.io.File.getParent` / `getName` on such strings.
 */
module Scanner {
  import opened Wrappers
  import opened Media

  // ------------------------------------------------------------ paths

  /** `String.lastIndexOf(c)`: the last index holding c, or -1. */
  function LastIndexOf(s: string, c: char): (i: int)
    ensures -1 <= i < |s|
    ensures i >= 0 ==> s[i] == c
    ensures forall j :: i < j < |s| ==> s[j] != c
  {
    if s == [] then -1
    else if s[|s| - 1] == c then |s| - 1
    else LastIndexOf(s[..|s| - 1], c)
  }

  /** The length of the root prefix of a Unix path: 1 for an absolute path, else 0. */
  function PrefixLength(path: string): nat {
    if |path| > 0 && path[0] == '/' then 1 else 0
  }

  /** `File(path).parent`: everything before the last `/`, the root for a file
      directly under it, and null (`None`) when there is no parent. */
  function ParentPath(path: string): (r: Option<string>)
    ensures r.Some? ==> |r.value| < |path| && path[..|r.value|] == r.value
    ensures r.None? <==> LastIndexOf(path, '/') < PrefixLength(path) && !(PrefixLength(path) == 1 && |path| > 1)
  {
    var i := LastIndexOf(path, '/');
    var p := PrefixLength(path);
    if i < p then
      if p > 0 && |path| > p then Some(path[..p]) else None
    else Some(path[..i])
  }

  /** `File(path).name`: what follows the last `/`. */
  function FileName(path: string): (r: string)
    ensures '/' !in r
    ensures |r| <= |path| && path[|path| - |r|..] == r
  {
    var i := LastIndexOf(path, '/');
    var p := PrefixLength(path);
    if i < p then
      assert i == -1 || i == 0;
      path[p..]
    else path[i + 1..]
  }

  /** A normalised path, as `java.io.File` keeps it: no empty component. */
  predicate Normalised(path: string) {
    forall j :: 0 < j < |path| ==> !(path[j - 1] == '/' && path[j] == '/')
  }

  /** The parent and the name put back together give the path. */
  lemma ParentThenName(path: string)
    requires Normalised(path) && ParentPath(path).Some?
    ensures var q := ParentPath(path).value;
      path == (if q == "/" then q else q + "/") + FileName(path)
  {
    var i := LastIndexOf(path, '/');
    if i < PrefixLength(path) {
      assert path == path[..1] + path[1..];
    } else {
      assert path == path[..i] + "/" + path[i + 1..];
      assert i == 1 ==> path[0] != '/';
    }
  }

  /** The key `groupBy` uses: the parent directory, or "" when the path has none. */
  function FolderKey(path: string): (k: string)
    ensures ParentPath(path).None? ==> k == ""
    ensures ParentPath(path).Some? ==> k == ParentPath(path).value
  {
    ParentPath(path).GetOr("")
  }

  /** The grouping key of a scanned song: the folder it lies in. */
  function SongFolder(x: AudioFile): string {
    FolderKey(x.path)
  }

  // ------------------------------------------------------------ groupBy

  datatype Group = Group(key: string, songs: seq<AudioFile>)

  /** The songs of `s` whose key is k, in scan order. */
  function SongsIn(s: seq<AudioFile>, key: AudioFile -> string, k: string): seq<AudioFile> {
    if s == [] then []
    else
      var last := s[|s| - 1];
      SongsIn(s[..|s| - 1], key, k) + (if key(last) == k then [last] else [])
  }

  /** The songs of folder k are exactly the scanned songs with key k. */
  lemma {:induction false} SongsInMembers(s: seq<AudioFile>, key: AudioFile -> string, k: string)
    ensures forall x :: x in SongsIn(s, key, k) <==> x in s && key(x) == k
  {
    if s != [] {
      var last := s[|s| - 1];
      assert s == s[..|s| - 1] + [last];
      SongsInMembers(s[..|s| - 1], key, k);
    }
  }

  /** The index of the first scanned song with key k, or |s| when there is none. */
  function FirstWith(s: seq<AudioFile>, key: AudioFile -> string, k: string): (r: nat)
    ensures r <= |s|
    ensures r < |s| ==> key(s[r]) == k
    ensures forall i :: 0 <= i < r ==> key(s[i]) != k
  {
    if s == [] then 0
    else
      var n := |s| - 1;
      var f := FirstWith(s[..n], key, k);
      assert forall i :: 0 <= i < f ==> s[..n][i] == s[i];
      if f < n then f else if key(s[n]) == k then n else |s|
  }

  lemma FirstWithSnoc(s: seq<AudioFile>, key: AudioFile -> string, x: AudioFile, k: string)
    ensures FirstWith(s + [x], key, k) ==
      if FirstWith(s, key, k) < |s| then FirstWith(s, key, k)
      else if key(x) == k then |s| else |s| + 1
  {
    assert (s + [x])[..|s|] == s;
  }

  /** Where `getOrPut` finds the group of key k, or -1. */
  function GroupIndex(gs: seq<Group>, k: string): (i: int)
    ensures -1 <= i < |gs|
    ensures i >= 0 ==> gs[i].key == k
    ensures i < 0 ==> forall j :: 0 <= j < |gs| ==> gs[j].key != k
  {
    if gs == [] then -1
    else if gs[|gs| - 1].key == k then |gs| - 1
    else GroupIndex(gs[..|gs| - 1], k)
  }

  /** `getOrPut(k) { ArrayList() }.add(x)` on the insertion-ordered map. */
  function AddToGroups(gs: seq<Group>, k: string, x: AudioFile): seq<Group> {
    var i := GroupIndex(gs, k);
    if i < 0 then gs + [Group(k, [x])]
    else gs[i := gs[i].(songs := gs[i].songs + [x])]
  }

  /** Kotlin `groupBy(key)`: groups in order of first appearance, each in scan order. */
  function GroupBy(s: seq<AudioFile>, key: AudioFile -> string): seq<Group> {
    if s == [] then []
    else
      var last := s[|s| - 1];
      AddToGroups(GroupBy(s[..|s| - 1], key), key(last), last)
  }

  function TotalGrouped(gs: seq<Group>): nat {
    if gs == [] then 0 else TotalGrouped(gs[..|gs| - 1]) + |gs[|gs| - 1].songs|
  }

  lemma {:induction false} TotalGroupedUpdate(gs: seq<Group>, i: int, g: Group)
    requires 0 <= i < |gs|
    ensures TotalGrouped(gs[i := g]) + |gs[i].songs| == TotalGrouped(gs) + |g.songs|
    decreases |gs|
  {
    var n := |gs| - 1;
    var u := gs[i := g];
    assert u[..n] == if i == n then gs[..n] else gs[..n][i := g];
    if i < n {
      TotalGroupedUpdate(gs[..n], i, g);
    }
  }

  /** Keys present in the grouping. */
  predicate HasKey(gs: seq<Group>, k: string) { exists i :: 0 <= i < |gs| && gs[i].key == k }

  /** g is what `groupBy` makes of s: one group per folder that occurs, with distinct
      keys, each holding exactly that folder's songs in scan order; no song is lost. */
  predicate GroupsOf(g: seq<Group>, s: seq<AudioFile>, key: AudioFile -> string) {
    && (forall i :: 0 <= i < |g| ==> g[i].songs == SongsIn(s, key, g[i].key) && |g[i].songs| > 0)
    && (forall i, j :: 0 <= i < j < |g| ==> g[i].key != g[j].key)
    && (forall x :: x in s ==> HasKey(g, key(x)))
    && TotalGrouped(g) == |s|
  }

  lemma SongsInSnoc(s: seq<AudioFile>, key: AudioFile -> string, x: AudioFile, k: string)
    ensures SongsIn(s + [x], key, k) == SongsIn(s, key, k) + (if key(x) == k then [x] else [])
  {
    assert (s + [x])[..|s|] == s;
  }

  /** A key without a group has no songs yet. */
  lemma NoSongsOfNewKey(g: seq<Group>, s: seq<AudioFile>, key: AudioFile -> string, k: string)
    requires forall x :: x in s ==> HasKey(g, key(x))
    requires GroupIndex(g, k) < 0
    ensures SongsIn(s, key, k) == []
  {
    forall y | y in s ensures key(y) != k {
      var j :| 0 <= j < |g| && g[j].key == key(y);
    }
    SongsInNone(s, key, k);
  }

  lemma {:induction false} SongsInNone(s: seq<AudioFile>, key: AudioFile -> string, k: string)
    requires forall y :: y in s ==> key(y) != k
    ensures SongsIn(s, key, k) == []
  {
    if s != [] {
      assert s[|s| - 1] in s;
      SongsInNone(s[..|s| - 1], key, k);
    }
  }

  /** The first song of a new folder opens a group at the end. */
  lemma AddNewGroup(g: seq<Group>, s: seq<AudioFile>, key: AudioFile -> string, x: AudioFile)
    requires GroupsOf(g, s, key) && GroupIndex(g, key(x)) < 0
    ensures GroupsOf(AddToGroups(g, key(x), x), s + [x], key)
  {
    var k := key(x);
    var g2 := g + [Group(k, [x])];
    var s2 := s + [x];
    assert AddToGroups(g, k, x) == g2;
    NoSongsOfNewKey(g, s, key, k);
    forall i | 0 <= i < |g2|
      ensures g2[i].songs == SongsIn(s2, key, g2[i].key) && |g2[i].songs| > 0
    {
      SongsInSnoc(s, key, x, g2[i].key);
      if i < |g| { assert g2[i] == g[i]; }
    }
    forall i, j | 0 <= i < j < |g2| ensures g2[i].key != g2[j].key {
      assert g2[i] == g[i];
      if j < |g| { assert g2[j] == g[j]; }
    }
    forall y | y in s2 ensures HasKey(g2, key(y)) {
      if y in s {
        var j :| 0 <= j < |g| && g[j].key == key(y);
        assert g2[j] == g[j];
      } else {
        assert g2[|g|].key == k;
      }
    }
    assert TotalGrouped(g2) == TotalGrouped(g) + 1 by { assert g2[..|g2| - 1] == g; }
  }

  /** A further song of a known folder is appended to that folder's group. */
  lemma AddToExistingGroup(g: seq<Group>, s: seq<AudioFile>, key: AudioFile -> string, x: AudioFile)
    requires GroupsOf(g, s, key) && GroupIndex(g, key(x)) >= 0
    ensures GroupsOf(AddToGroups(g, key(x), x), s + [x], key)
  {
    var k := key(x);
    var idx := GroupIndex(g, k);
    var grown := g[idx].(songs := g[idx].songs + [x]);
    var g2 := AddToGroups(g, k, x);
    var s2 := s + [x];
    assert g2 == g[idx := grown];
    TotalGroupedUpdate(g, idx, grown);
    forall i | 0 <= i < |g2| ensures g2[i].songs == SongsIn(s2, key, g2[i].key) {
      SongsInSnoc(s, key, x, g2[i].key);
    }
    forall y | y in s2 ensures HasKey(g2, key(y)) {
      if y in s {
        var j :| 0 <= j < |g| && g[j].key == key(y);
        assert g2[j].key == g[j].key;
      } else {
        assert g2[idx].key == k;
      }
    }
  }

  /** What `groupBy` promises, for every scan. */
  lemma {:induction false} GroupByFacts(s: seq<AudioFile>, key: AudioFile -> string)
    ensures GroupsOf(GroupBy(s, key), s, key)
  {
    if s != [] {
      var s' := s[..|s| - 1];
      var x := s[|s| - 1];
      assert s == s' + [x];
      GroupByFacts(s', key);
      if GroupIndex(GroupBy(s', key), key(x)) < 0 {
        AddNewGroup(GroupBy(s', key), s', key, x);
      } else {
        AddToExistingGroup(GroupBy(s', key), s', key, x);
      }
    }
  }

  /** The groups come in the order in which their keys first occur in the scan. */
  predicate InScanOrder(g: seq<Group>, s: seq<AudioFile>, key: AudioFile -> string) {
    && (forall i :: 0 <= i < |g| ==> FirstWith(s, key, g[i].key) < |s|)
    && (forall i, j :: 0 <= i < j < |g| ==> FirstWith(s, key, g[i].key) < FirstWith(s, key, g[j].key))
  }

  /** A key that has no group yet does not occur in the scan. */
  lemma NewKeyFirstAtEnd(g: seq<Group>, s: seq<AudioFile>, key: AudioFile -> string, k: string)
    requires forall y :: y in s ==> HasKey(g, key(y))
    requires GroupIndex(g, k) < 0
    ensures FirstWith(s, key, k) == |s|
  {
  }

  lemma OrderAfterNewGroup(g: seq<Group>, s: seq<AudioFile>, key: AudioFile -> string, x: AudioFile)
    requires InScanOrder(g, s, key)
    requires FirstWith(s, key, key(x)) == |s|
    ensures InScanOrder(g + [Group(key(x), [x])], s + [x], key)
  {
    var g2 := g + [Group(key(x), [x])];
    var s2 := s + [x];
    FirstWithSnoc(s, key, x, key(x));
    assert FirstWith(s2, key, g2[|g|].key) == |s|;
    forall i | 0 <= i < |g| ensures FirstWith(s2, key, g2[i].key) == FirstWith(s, key, g[i].key) < |s| {
      FirstWithSnoc(s, key, x, g[i].key);
      assert g2[i] == g[i];
    }
    forall i, j | 0 <= i < j < |g2| ensures FirstWith(s2, key, g2[i].key) < FirstWith(s2, key, g2[j].key) {
      if j < |g| {
        assert FirstWith(s, key, g[i].key) < FirstWith(s, key, g[j].key);
      }
    }
  }

  lemma OrderAfterExistingGroup(g: seq<Group>, s: seq<AudioFile>, key: AudioFile -> string,
                                idx: int, x: AudioFile)
    requires InScanOrder(g, s, key) && 0 <= idx < |g|
    ensures InScanOrder(g[idx := g[idx].(songs := g[idx].songs + [x])], s + [x], key)
  {
    var g2 := g[idx := g[idx].(songs := g[idx].songs + [x])];
    forall i | 0 <= i < |g| ensures FirstWith(s + [x], key, g2[i].key) == FirstWith(s, key, g[i].key) {
      FirstWithSnoc(s, key, x, g[i].key);
    }
  }

  /** `groupBy` keeps its groups in order of first occurrence (its map is a `LinkedHashMap`). */
  lemma {:induction false} GroupByOrder(s: seq<AudioFile>, key: AudioFile -> string)
    ensures InScanOrder(GroupBy(s, key), s, key)
  {
    if s != [] {
      var s' := s[..|s| - 1];
      var x := s[|s| - 1];
      assert s == s' + [x];
      var g := GroupBy(s', key);
      GroupByOrder(s', key);
      var idx := GroupIndex(g, key(x));
      if idx < 0 {
        GroupByFacts(s', key);
        NewKeyFirstAtEnd(g, s', key, key(x));
        OrderAfterNewGroup(g, s', key, x);
      } else {
        OrderAfterExistingGroup(g, s', key, idx, x);
      }
    }
  }

  // ------------------------------------------------------------ the playlists

  function ToPlaylist(g: Group): (p: FolderPlaylist)
    ensures p.folderPath == g.key && p.folderName == FileName(g.key) && p.songs == g.songs
  {
    FolderPlaylist(g.key, FileName(g.key), g.songs)
  }

  /** `.map { (folderPath, songs) -> FolderPlaylist(...) }`. */
  function ToPlaylists(gs: seq<Group>): (ps: seq<FolderPlaylist>)
    ensures |ps| == |gs| && forall i :: 0 <= i < |gs| ==> ps[i] == ToPlaylist(gs[i])
  {
    if gs == [] then [] else ToPlaylists(gs[..|gs| - 1]) + [ToPlaylist(gs[|gs| - 1])]
  }

  /** `.filter { it.songs.isNotEmpty() }`. */
  function DropEmpty(ps: seq<FolderPlaylist>): (r: seq<FolderPlaylist>)
    ensures forall p :: p in r ==> p in ps && |p.songs| > 0
    ensures (forall i :: 0 <= i < |ps| ==> |ps[i].songs| > 0) ==> r == ps
  {
    if ps == [] then []
    else if |ps[0].songs| > 0 then [ps[0]] + DropEmpty(ps[1..])
    else DropEmpty(ps[1..])
  }

  /** Kotlin `String.compareTo(...) <= 0`: lexicographic order of characters. */
  predicate NameLe(a: string, b: string) {
    if a == [] then true
    else if b == [] then false
    else if a[0] != b[0] then a[0] < b[0]
    else NameLe(a[1..], b[1..])
  }

  lemma {:induction false} NameLeTotal(a: string, b: string)
    ensures NameLe(a, b) || NameLe(b, a)
  {
    if a != [] && b != [] && a[0] == b[0] {
      NameLeTotal(a[1..], b[1..]);
    }
  }

  lemma {:induction false} NameLeReflexive(a: string)
    ensures NameLe(a, a)
  {
    if a != [] {
      NameLeReflexive(a[1..]);
    }
  }

  /** Stable insertion: x goes before the first playlist whose name is not below its own. */
  function Insert(x: FolderPlaylist, t: seq<FolderPlaylist>): (r: seq<FolderPlaylist>)
    ensures multiset(r) == multiset(t) + multiset{x}
    ensures |r| == |t| + 1
  {
    if t == [] || NameLe(x.folderName, t[0].folderName) then [x] + t
    else
      assert t == [t[0]] + t[1..];
      [t[0]] + Insert(x, t[1..])
  }

  /** `.sortedBy { it.folderName }`. */
  function SortByName(ps: seq<FolderPlaylist>): (r: seq<FolderPlaylist>)
    ensures multiset(r) == multiset(ps)
  {
    if ps == [] then []
    else
      assert ps == [ps[0]] + ps[1..];
      Insert(ps[0], SortByName(ps[1..]))
  }

  predicate SortedByName(ps: seq<FolderPlaylist>) {
    forall i :: 0 < i < |ps| ==> NameLe(ps[i - 1].folderName, ps[i].folderName)
  }

  lemma {:induction false} InsertSorted(x: FolderPlaylist, t: seq<FolderPlaylist>)
    requires SortedByName(t)
    ensures SortedByName(Insert(x, t))
    ensures Insert(x, t)[0] == x || (t != [] && Insert(x, t)[0] == t[0])
  {
    if t != [] && !NameLe(x.folderName, t[0].folderName) {
      InsertSorted(x, t[1..]);
      NameLeTotal(x.folderName, t[0].folderName);
      var r := Insert(x, t);
      assert r == [t[0]] + Insert(x, t[1..]);
    }
  }

  lemma {:induction false} SortSorted(ps: seq<FolderPlaylist>)
    ensures SortedByName(SortByName(ps))
  {
    if ps != [] {
      SortSorted(ps[1..]);
      InsertSorted(ps[0], SortByName(ps[1..]));
    }
  }

  /** The playlists named n, in order. */
  function Named(ps: seq<FolderPlaylist>, n: string): seq<FolderPlaylist> {
    if ps == [] then []
    else (if ps[0].folderName == n then [ps[0]] else []) + Named(ps[1..], n)
  }

  lemma {:induction false} InsertStable(x: FolderPlaylist, t: seq<FolderPlaylist>, n: string)
    ensures Named(Insert(x, t), n) == (if x.folderName == n then [x] else []) + Named(t, n)
  {
    var r := Insert(x, t);
    var mine := if x.folderName == n then [x] else [];
    if t == [] || NameLe(x.folderName, t[0].folderName) {
      assert r == [x] + t;
      assert r[1..] == t;
    } else {
      var head := if t[0].folderName == n then [t[0]] else [];
      assert r == [t[0]] + Insert(x, t[1..]);
      assert r[1..] == Insert(x, t[1..]);
      assert Named(r, n) == head + Named(r[1..], n);
      assert Named(t, n) == head + Named(t[1..], n);
      InsertStable(x, t[1..], n);
      if x.folderName == n {
        NameLeReflexive(x.folderName);
        assert head == [];
      } else {
        assert mine == [];
      }
    }
  }

  /** Stability: among playlists of one name the sort keeps their original order. */
  lemma {:induction false} SortStable(ps: seq<FolderPlaylist>, n: string)
    ensures Named(SortByName(ps), n) == Named(ps, n)
  {
    if ps != [] {
      SortStable(ps[1..], n);
      InsertStable(ps[0], SortByName(ps[1..]), n);
    }
  }

  /** `getFolderPlaylists` over the scanned songs. */
  function FolderPlaylists(songs: seq<AudioFile>): seq<FolderPlaylist> {
    SortByName(DropEmpty(ToPlaylists(GroupBy(songs, SongFolder))))
  }

  /** The playlists before sorting: one per folder, in order of first appearance. */
  function Unsorted(songs: seq<AudioFile>): seq<FolderPlaylist> {
    DropEmpty(ToPlaylists(GroupBy(songs, SongFolder)))
  }

  function TotalSongs(ps: seq<FolderPlaylist>): nat {
    if ps == [] then 0 else |ps[0].songs| + TotalSongs(ps[1..])
  }

  lemma {:induction false} TotalSongsInsert(x: FolderPlaylist, t: seq<FolderPlaylist>)
    ensures TotalSongs(Insert(x, t)) == |x.songs| + TotalSongs(t)
  {
    if t != [] && !NameLe(x.folderName, t[0].folderName) {
      TotalSongsInsert(x, t[1..]);
      assert Insert(x, t)[1..] == Insert(x, t[1..]);
    } else {
      assert Insert(x, t)[1..] == t;
    }
  }

  lemma {:induction false} TotalSongsSort(ps: seq<FolderPlaylist>)
    ensures TotalSongs(SortByName(ps)) == TotalSongs(ps)
  {
    if ps != [] {
      TotalSongsSort(ps[1..]);
      TotalSongsInsert(ps[0], SortByName(ps[1..]));
    }
  }

  lemma {:induction false} TotalSongsOfGroups(gs: seq<Group>)
    ensures TotalSongs(ToPlaylists(gs)) == TotalGrouped(gs)
  {
    if gs != [] {
      var n := |gs| - 1;
      TotalSongsOfGroups(gs[..n]);
      TotalSongsAppend(ToPlaylists(gs[..n]), ToPlaylist(gs[n]));
      assert ToPlaylists(gs) == ToPlaylists(gs[..n]) + [ToPlaylist(gs[n])];
    }
  }

  lemma {:induction false} TotalSongsAppend(ps: seq<FolderPlaylist>, x: FolderPlaylist)
    ensures TotalSongs(ps + [x]) == TotalSongs(ps) + |x.songs|
  {
    if ps != [] {
      TotalSongsAppend(ps[1..], x);
      assert (ps + [x])[1..] == ps[1..] + [x];
    } else {
      assert ([x])[1..] == [];
    }
  }

  /** The folder paths of a list of playlists. */
  function Paths(ps: seq<FolderPlaylist>): set<string> {
    if ps == [] then {} else {ps[0].folderPath} + Paths(ps[1..])
  }

  predicate DistinctPaths(ps: seq<FolderPlaylist>) {
    ps == [] || (ps[0].folderPath !in Paths(ps[1..]) && DistinctPaths(ps[1..]))
  }

  lemma {:induction false} PathsByIndex(ps: seq<FolderPlaylist>)
    ensures forall p :: p in Paths(ps) <==> exists i :: 0 <= i < |ps| && ps[i].folderPath == p
    ensures DistinctPaths(ps) <==>
      forall i, j :: 0 <= i < j < |ps| ==> ps[i].folderPath != ps[j].folderPath
  {
    if ps != [] {
      var t := ps[1..];
      PathsByIndex(t);
      forall p | p in Paths(ps) ensures exists i :: 0 <= i < |ps| && ps[i].folderPath == p {
        if p != ps[0].folderPath {
          assert p in Paths(t);
          var i :| 0 <= i < |t| && t[i].folderPath == p;
          assert ps[i + 1] == t[i];
        }
      }
      forall i | 0 < i < |ps| ensures ps[i].folderPath in Paths(t) {
        assert t[i - 1] == ps[i];
      }
      if forall i, j :: 0 <= i < j < |ps| ==> ps[i].folderPath != ps[j].folderPath {
        forall i, j | 0 <= i < j < |t| ensures t[i].folderPath != t[j].folderPath {
          assert t[i] == ps[i + 1] && t[j] == ps[j + 1];
        }
      }
      if DistinctPaths(ps) {
        forall i, j | 0 <= i < j < |ps| ensures ps[i].folderPath != ps[j].folderPath {
          if i > 0 {
            assert ps[i] == t[i - 1] && ps[j] == t[j - 1];
          }
        }
      }
    }
  }

  lemma {:induction false} InsertDistinct(x: FolderPlaylist, t: seq<FolderPlaylist>)
    requires DistinctPaths(t) && x.folderPath !in Paths(t)
    ensures DistinctPaths(Insert(x, t)) && Paths(Insert(x, t)) == Paths(t) + {x.folderPath}
  {
    var r := Insert(x, t);
    if t == [] || NameLe(x.folderName, t[0].folderName) {
      assert r[1..] == t;
    } else {
      InsertDistinct(x, t[1..]);
      assert r[1..] == Insert(x, t[1..]);
    }
  }

  lemma {:induction false} SortDistinct(ps: seq<FolderPlaylist>)
    requires DistinctPaths(ps)
    ensures DistinctPaths(SortByName(ps))
    ensures Paths(SortByName(ps)) == Paths(ps)
  {
    if ps != [] {
      SortDistinct(ps[1..]);
      InsertDistinct(ps[0], SortByName(ps[1..]));
    }
  }

  /** pl is the playlist of one folder of the scan. */
  predicate FolderOf(songs: seq<AudioFile>, pl: FolderPlaylist) {
    && pl.songs == SongsIn(songs, SongFolder, pl.folderPath)
    && |pl.songs| > 0
    && pl.folderName == FileName(pl.folderPath)
  }

  lemma PlaylistsOfGroupsAreFolders(g: seq<Group>, songs: seq<AudioFile>)
    requires forall i :: 0 <= i < |g| ==> g[i].songs == SongsIn(songs, SongFolder, g[i].key) && |g[i].songs| > 0
    ensures forall i :: 0 <= i < |ToPlaylists(g)| ==> FolderOf(songs, ToPlaylists(g)[i])
  {
  }

  lemma PlaylistsOfGroupsDistinct(g: seq<Group>)
    requires forall i, j :: 0 <= i < j < |g| ==> g[i].key != g[j].key
    ensures DistinctPaths(ToPlaylists(g))
  {
    PathsByIndex(ToPlaylists(g));
  }

  lemma PlaylistsOfGroupsCover(g: seq<Group>, songs: seq<AudioFile>)
    requires forall x :: x in songs ==> HasKey(g, SongFolder(x))
    ensures forall x :: x in songs ==> SongFolder(x) in Paths(ToPlaylists(g))
  {
    var u := ToPlaylists(g);
    PathsByIndex(u);
    forall x | x in songs ensures SongFolder(x) in Paths(u) {
      var i :| 0 <= i < |g| && g[i].key == SongFolder(x);
      assert u[i].folderPath == g[i].key;
    }
  }

  /** The per-folder facts, for the unsorted playlists. */
  lemma UnsortedFacts(songs: seq<AudioFile>)
    ensures var u := Unsorted(songs);
      && (forall i :: 0 <= i < |u| ==> FolderOf(songs, u[i]))
      && DistinctPaths(u)
      && (forall x :: x in songs ==> SongFolder(x) in Paths(u))
      && TotalSongs(u) == |songs|
  {
    var g := GroupBy(songs, SongFolder);
    GroupByFacts(songs, SongFolder);
    TotalSongsOfGroups(g);
    PlaylistsOfGroupsAreFolders(g, songs);
    PlaylistsOfGroupsDistinct(g);
    PlaylistsOfGroupsCover(g, songs);
    var u := ToPlaylists(g);
    assert forall i :: 0 <= i < |u| ==> |u[i].songs| > 0;
    assert Unsorted(songs) == u;
  }

  // ------------------------------------------------------------ what getFolderPlaylists promises

  /** A permutation keeps a property that every element has. */
  lemma PermutationKeepsFolders(u: seq<FolderPlaylist>, out: seq<FolderPlaylist>, songs: seq<AudioFile>)
    requires multiset(out) == multiset(u)
    requires forall i :: 0 <= i < |u| ==> FolderOf(songs, u[i])
    ensures forall p :: 0 <= p < |out| ==> FolderOf(songs, out[p])
  {
    forall p | 0 <= p < |out| ensures FolderOf(songs, out[p]) {
      assert out[p] in multiset(out);
      var i :| 0 <= i < |u| && u[i] == out[p];
    }
  }

  /** Every song of a folder's playlist lies in that folder. */
  lemma FolderSongsLieInIt(songs: seq<AudioFile>, pl: FolderPlaylist)
    requires FolderOf(songs, pl)
    ensures forall x :: x in pl.songs ==> x in songs && SongFolder(x) == pl.folderPath
  {
    SongsInMembers(songs, SongFolder, pl.folderPath);
  }

  /** Where the folder of a playlist first occurs in the scan. */
  function FirstSeen(songs: seq<AudioFile>, p: FolderPlaylist): nat {
    FirstWith(songs, SongFolder, p.folderPath)
  }

  /** Playlists that share a name come in the order their folders first occur. */
  predicate SameNameInScanOrder(ps: seq<FolderPlaylist>, songs: seq<AudioFile>) {
    forall i, j :: 0 <= i < j < |ps| && ps[i].folderName == ps[j].folderName ==>
      FirstSeen(songs, ps[i]) < FirstSeen(songs, ps[j])
  }

  /** Before sorting, the playlists are in order of first occurrence. */
  lemma UnsortedInScanOrder(songs: seq<AudioFile>)
    ensures forall i, j :: 0 <= i < j < |Unsorted(songs)| ==>
      FirstSeen(songs, Unsorted(songs)[i]) < FirstSeen(songs, Unsorted(songs)[j])
  {
    var g := GroupBy(songs, SongFolder);
    GroupByFacts(songs, SongFolder);
    GroupByOrder(songs, SongFolder);
    var u := ToPlaylists(g);
    assert forall i :: 0 <= i < |u| ==> |u[i].songs| > 0;
    assert Unsorted(songs) == u;
  }

  /** A playlist put in front of ordered ones keeps the order when it comes first in the scan
      among those of its name. */
  lemma ConsKeepsSameNameOrder(y: FolderPlaylist, t: seq<FolderPlaylist>, songs: seq<AudioFile>)
    requires SameNameInScanOrder(t, songs)
    requires forall p :: p in t && p.folderName == y.folderName ==> FirstSeen(songs, y) < FirstSeen(songs, p)
    ensures SameNameInScanOrder([y] + t, songs)
  {
    var r := [y] + t;
    forall i, j | 0 <= i < j < |r| && r[i].folderName == r[j].folderName
      ensures FirstSeen(songs, r[i]) < FirstSeen(songs, r[j])
    {
      assert r[j] == t[j - 1] && r[j] in t;
      if i > 0 { assert r[i] == t[i - 1]; }
    }
  }

  /** The converse: the tail stays ordered, and the head comes first among those of its name. */
  lemma TailKeepsSameNameOrder(t: seq<FolderPlaylist>, songs: seq<AudioFile>)
    requires t != [] && SameNameInScanOrder(t, songs)
    ensures SameNameInScanOrder(t[1..], songs)
    ensures forall p :: p in t[1..] && p.folderName == t[0].folderName ==> FirstSeen(songs, t[0]) < FirstSeen(songs, p)
  {
    var rest := t[1..];
    forall i, j | 0 <= i < j < |rest| && rest[i].folderName == rest[j].folderName
      ensures FirstSeen(songs, rest[i]) < FirstSeen(songs, rest[j])
    {
      assert rest[i] == t[i + 1] && rest[j] == t[j + 1];
    }
    forall p | p in rest && p.folderName == t[0].folderName ensures FirstSeen(songs, t[0]) < FirstSeen(songs, p) {
      var k :| 0 <= k < |rest| && rest[k] == p;
      assert t[k + 1] == p;
    }
  }

  lemma {:induction false} InsertKeepsSameNameOrder(x: FolderPlaylist, t: seq<FolderPlaylist>, songs: seq<AudioFile>)
    requires SameNameInScanOrder(t, songs)
    requires forall p :: p in t && p.folderName == x.folderName ==> FirstSeen(songs, x) < FirstSeen(songs, p)
    ensures SameNameInScanOrder(Insert(x, t), songs)
  {
    if t == [] || NameLe(x.folderName, t[0].folderName) {
      ConsKeepsSameNameOrder(x, t, songs);
    } else {
      var rest := t[1..];
      var ri := Insert(x, rest);
      assert Insert(x, t) == [t[0]] + ri;
      TailKeepsSameNameOrder(t, songs);
      InsertKeepsSameNameOrder(x, rest, songs);
      forall q | q in ri && q.folderName == t[0].folderName ensures FirstSeen(songs, t[0]) < FirstSeen(songs, q) {
        assert q in multiset(ri);
        if q == x {
          NameLeReflexive(x.folderName);
        }
        assert q in multiset(rest);
      }
      ConsKeepsSameNameOrder(t[0], ri, songs);
    }
  }

  lemma {:induction false} SortKeepsSameNameOrder(ps: seq<FolderPlaylist>, songs: seq<AudioFile>)
    requires SameNameInScanOrder(ps, songs)
    ensures SameNameInScanOrder(SortByName(ps), songs)
  {
    if ps != [] {
      TailKeepsSameNameOrder(ps, songs);
      SortKeepsSameNameOrder(ps[1..], songs);
      var sr := SortByName(ps[1..]);
      forall p | p in sr && p.folderName == ps[0].folderName
        ensures FirstSeen(songs, ps[0]) < FirstSeen(songs, p)
      {
        assert p in multiset(sr);
        assert p in multiset(ps[1..]);
      }
      InsertKeepsSameNameOrder(ps[0], sr, songs);
    }
  }

  /** Every playlist is a non-empty folder of the scan, named after the last component
      of its path, holding exactly that folder's songs in scan order; paths are distinct. */
  lemma FolderPlaylistsAreFolders(songs: seq<AudioFile>)
    ensures var out := FolderPlaylists(songs);
      && (forall i, j :: 0 <= i < j < |out| ==> out[i].folderPath != out[j].folderPath)
      && (forall p :: 0 <= p < |out| ==> FolderOf(songs, out[p]))
      && (forall p, x :: 0 <= p < |out| && x in out[p].songs ==> SongFolder(x) == out[p].folderPath)
  {
    var u := Unsorted(songs);
    UnsortedFacts(songs);
    SortDistinct(u);
    var out := FolderPlaylists(songs);
    PathsByIndex(out);
    PermutationKeepsFolders(u, out, songs);
    forall p, x | 0 <= p < |out| && x in out[p].songs ensures SongFolder(x) == out[p].folderPath {
      FolderSongsLieInIt(songs, out[p]);
    }
  }

  /** No song is added or lost: the playlists hold as many songs as were scanned. */
  lemma FolderPlaylistsKeepCount(songs: seq<AudioFile>)
    ensures TotalSongs(FolderPlaylists(songs)) == |songs|
  {
    UnsortedFacts(songs);
    TotalSongsSort(Unsorted(songs));
  }

  /** Every scanned song is in exactly one playlist. */
  lemma FolderPlaylistsPartition(songs: seq<AudioFile>)
    ensures var out := FolderPlaylists(songs);
      forall x :: x in songs ==>
        exists p :: 0 <= p < |out| && x in out[p].songs &&
          forall q :: 0 <= q < |out| && x in out[q].songs ==> q == p
  {
    forall x | x in songs
      ensures exists p :: 0 <= p < |FolderPlaylists(songs)| && x in FolderPlaylists(songs)[p].songs &&
                forall q :: 0 <= q < |FolderPlaylists(songs)| && x in FolderPlaylists(songs)[q].songs ==> q == p
    {
      var p := SongInItsFolder(songs, x);
    }
  }

  /** The playlist of the folder a scanned song lies in, which is the only one holding it. */
  lemma SongInItsFolder(songs: seq<AudioFile>, x: AudioFile) returns (p: nat)
    requires x in songs
    ensures p < |FolderPlaylists(songs)| && x in FolderPlaylists(songs)[p].songs
    ensures forall q :: 0 <= q < |FolderPlaylists(songs)| && x in FolderPlaylists(songs)[q].songs ==> q == p
  {
    var out := FolderPlaylists(songs);
    var k := SongFolder(x);
    assert k in Paths(out) by {
      UnsortedFacts(songs);
      SortDistinct(Unsorted(songs));
    }
    PathsByIndex(out);
    p :| 0 <= p < |out| && out[p].folderPath == k;
    FolderPlaylistsAreFolders(songs);
    SongsInMembers(songs, SongFolder, k);
    forall q | 0 <= q < |out| && x in out[q].songs ensures q == p {
      FolderSongsLieInIt(songs, out[q]);
    }
  }

  /** The playlists come out sorted by name, and playlists of equal name keep the
      order in which their folders first appear in the scan. */
  lemma FolderPlaylistsOrder(songs: seq<AudioFile>, n: string)
    ensures SortedByName(FolderPlaylists(songs))
    ensures Named(FolderPlaylists(songs), n) == Named(Unsorted(songs), n)
    ensures var out := FolderPlaylists(songs);
      forall i, j :: 0 <= i < j < |out| && out[i].folderName == out[j].folderName ==>
        FirstWith(songs, SongFolder, out[i].folderPath) < FirstWith(songs, SongFolder, out[j].folderPath)
  {
    var u := Unsorted(songs);
    SortSorted(u);
    SortStable(u, n);
    UnsortedInScanOrder(songs);
    SortKeepsSameNameOrder(u, songs);
  }

  /** A song whose path has no parent is in the playlist with folder path "". */
  lemma NoParentGoesToEmptyFolder(songs: seq<AudioFile>, x: AudioFile)
    requires x in songs && ParentPath(x.path).None?
    ensures exists p :: 0 <= p < |FolderPlaylists(songs)| &&
                FolderPlaylists(songs)[p].folderPath == "" && x in FolderPlaylists(songs)[p].songs
  {
    FolderPlaylistsPartition(songs);
    FolderPlaylistsAreFolders(songs);
    var out := FolderPlaylists(songs);
    var p :| 0 <= p < |out| && x in out[p].songs;
    assert SongFolder(x) == out[p].folderPath;
  }
}
