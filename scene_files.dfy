// The text handling of FSceneDataImporter::FillDataSets
// (UnrealEngine/FSceneDataImporter.cpp:13-133): the scene prefix, the number
// of LOD slots, the table key of each exported file, the dropped header line
// and the tokenizer that splits a row into columns.
//
// The directory listing and the lines of each file are inputs: a sequence of
// file names and a map from file name to its lines as `std::getline` returns
// them.
module SceneFiles {
  import opened Wrappers
  import opened WString
  import opened TypeDef
  import opened StringManager

  const Backslash: char := '\\'
  const WorldPrefix: string := "World_"
  const LodPostfix: string := "_LOD"
  const CsvExtension: string := ".csv"
  /** The characters `find_first_of(L",\"")` stops at. */
  const Delimiters: set<char> := {',', '"'}

  // ---------------------------------------------------------------------
  // Scene prefix (FSceneDataImporter.cpp:17-27)

  /** `path.substr(path.rfind(L"\\") + 1)`: the text after the last backslash;
      with no backslash `npos + 1` wraps to 0 and it is the whole path. */
  function AfterLastBackslash(path: string): (t: string)
    ensures |t| <= |path| && t == path[|path| - |t|..]
    ensures Backslash !in t
    ensures |t| < |path| ==> path[|path| - |t| - 1] == Backslash
    ensures Backslash !in path ==> t == path
  {
    match RFind(path, [Backslash])
    case None =>
      forall k | 0 <= k < |path| ensures path[k] != Backslash {
        OccursAtChar(path, Backslash, k);
      }
      path
    case Some(k) =>
      OccursAtChar(path, Backslash, k);
      forall j | k < j < |path| ensures path[j] != Backslash {
        OccursAtChar(path, Backslash, j);
      }
      path[k + 1..]
  }

  /** `s.erase(s.find(pat), pat.length())` when `pat` occurs, else `s`. */
  function DeleteFirst(s: string, pat: string): (r: string)
    ensures Find(s, pat, 0).None? ==> r == s
    ensures Find(s, pat, 0).Some? ==> |r| == |s| - |pat|
    ensures Find(s, pat, 0).Some? ==>
      var k := Find(s, pat, 0).value; r == s[..k] + s[k + |pat|..]
  {
    match Find(s, pat, 0)
    case None => s
    case Some(k) => Erase(s, k, |pat|)
  }

  /** The scene prefix every exported file name starts with. */
  function FilePrefix(path: string): (p: string)
    ensures |p| >= 1 && p[|p| - 1] == '_'
    ensures p[..|p| - 1] == DeleteFirst(AfterLastBackslash(path), WorldPrefix)
    ensures Backslash !in p
  {
    var name := DeleteFirst(AfterLastBackslash(path), WorldPrefix);
    assert Backslash !in name by {
      var t := AfterLastBackslash(path);
      if Find(t, WorldPrefix, 0).Some? {
        var k := Find(t, WorldPrefix, 0).value;
        assert name == t[..k] + t[k + |WorldPrefix|..];
        assert forall c :: c in name ==> c in t;
      }
    }
    name + "_"
  }

  // ---------------------------------------------------------------------
  // Table keys (FSceneDataImporter.cpp:87-92)

  /** Both erasures the key derivation performs are defined: the file name
      contains the prefix (otherwise `erase(npos, ..)` throws
      `std::out_of_range`), and what remains contains ".csv". */
  predicate KeyDefined(prefix: string, file: string)
  {
    Find(file, prefix, 0).Some? && RFind(DeleteFirst(file, prefix), CsvExtension).Some?
  }

  /** The table key of a file: its name with the first occurrence of the
      prefix erased and then the last ".csv" erased. */
  function TableKey(prefix: string, file: string): (key: string)
    requires KeyDefined(prefix, file)
    ensures |key| == |file| - |prefix| - |CsvExtension|
    ensures var name := DeleteFirst(file, prefix); var k := RFind(name, CsvExtension).value;
      key == name[..k] + name[k + |CsvExtension|..]
  {
    var name := DeleteFirst(file, prefix);
    Erase(name, RFind(name, CsvExtension).value, |CsvExtension|)
  }

  /** A file named prefix + name + ".csv" has the key `name`: the naming of
      the exported files and the key derivation are inverse. */
  lemma TableKeyOfExportName(prefix: string, name: string)
    ensures KeyDefined(prefix, prefix + name + CsvExtension)
    ensures TableKey(prefix, prefix + name + CsvExtension) == name
  {
    var file := prefix + name + CsvExtension;
    assert file[0..|prefix|] == prefix;
    assert Find(file, prefix, 0) == Some(0);
    var rest := DeleteFirst(file, prefix);
    assert rest == name + CsvExtension;
    assert rest[|name|..|name| + |CsvExtension|] == CsvExtension;
    assert RFind(rest, CsvExtension) == Some(|name|);
  }

  // ---------------------------------------------------------------------
  // LOD slots (FSceneDataImporter.cpp:52-62)

  /** The value one file contributes to `max_lod`: `WCharToInt32` of the single
      character after its last "_LOD" (the null character when "_LOD" ends the
      name), or nothing when the name has no "_LOD". */
  function LodDigit(su: StringUtil, file: string): Option<int>
  {
    match RFind(file, LodPostfix)
    case None => None
    case Some(k) => Some(su.charToInt32(CharAt(file, k + |LodPostfix|)) as int)
  }

  /** `max_lod` after the loop over the first |files| names: the largest
      contribution, and 0 when there is none or all are below 0. */
  function MaxLod(su: StringUtil, files: seq<string>): (m: int)
    ensures 0 <= m < 0x8000_0000
  {
    if files == [] then 0
    else
      var m := MaxLod(su, files[..|files| - 1]);
      match LodDigit(su, files[|files| - 1])
      case None => m
      case Some(d) => if d > m then d else m
  }

  /** `max_lod` bounds every name's contribution and is 0 or one of them. */
  lemma {:induction false} MaxLodIsMaximum(su: StringUtil, files: seq<string>)
    ensures forall k :: 0 <= k < |files| && LodDigit(su, files[k]).Some? ==>
      LodDigit(su, files[k]).value <= MaxLod(su, files)
    ensures MaxLod(su, files) == 0 || exists k :: 0 <= k < |files| && LodDigit(su, files[k]) == Some(MaxLod(su, files))
  {
    if files != [] {
      var init := files[..|files| - 1];
      MaxLodIsMaximum(su, init);
      assert forall k :: 0 <= k < |init| ==> init[k] == files[k];
    }
  }

  /** The loop of lines 55-60 followed by `resize(max_lod + 1)`: the number of
      LOD slots. */
  method CountLodSlots(su: StringUtil, files: seq<string>) returns (slots: int)
    ensures slots == MaxLod(su, files) + 1
  {
    var maxLod := 0;
    for n := 0 to |files|
      invariant maxLod == MaxLod(su, files[..n])
    {
      assert files[..n + 1][..n] == files[..n];
      var found := RFind(files[n], LodPostfix);
      if found.Some? {
        var d := su.charToInt32(CharAt(files[n], found.value + |LodPostfix|)) as int;
        maxLod := if maxLod > d then maxLod else d;
      }
    }
    assert files[..|files|] == files;
    slots := maxLod + 1;
  }

  /** No file carries "_LOD": one slot. */
  lemma OneSlotWithoutLodFiles(su: StringUtil, files: seq<string>)
    requires forall k :: 0 <= k < |files| ==> RFind(files[k], LodPostfix).None?
    ensures MaxLod(su, files) + 1 == 1
  {
  }

  /** Files for LODs 0 and 2 give three slots; LOD 1 is then an empty slot. */
  lemma LodSlotsCoverGaps(su: StringUtil)
    requires su.charToInt32('0') == 0 && su.charToInt32('2') == 2
    ensures MaxLod(su, ["Box_LOD0.csv", "Box_LOD2.csv"]) + 1 == 3
  {
    LodOfBox(su, "Box_LOD0.csv", "0.csv");
    LodOfBox(su, "Box_LOD2.csv", "2.csv");
    MaxLodOfTwo(su, "Box_LOD0.csv", "Box_LOD2.csv", 0, 2);
  }

  lemma LodOfBox(su: StringUtil, name: string, rest: string)
    requires name == "Box_LOD" + rest && |rest| >= 1 && '_' !in rest
    ensures LodDigit(su, name) == Some(su.charToInt32(rest[0]) as int)
  {
    BoxLodDigit(su, rest);
  }

  /** Two names whose digits are `da <= db`: `max_lod` is `db`. */
  lemma MaxLodOfTwo(su: StringUtil, a: string, b: string, da: int, db: int)
    requires LodDigit(su, a) == Some(da) && LodDigit(su, b) == Some(db) && 0 <= da <= db
    ensures MaxLod(su, [a, b]) == db
  {
    MaxLodOfOne(su, a);
    MaxLodStep(su, [a], b);
    assert [a] + [b] == [a, b];
  }

  /** Only the one character after "_LOD" is read: LOD 12 counts as LOD 1. */
  lemma LodSlotsReadOneDigit(su: StringUtil)
    requires su.charToInt32('1') == 1
    ensures MaxLod(su, ["Box_LOD12.csv"]) + 1 == 2
  {
    LodOfBox(su, "Box_LOD12.csv", "12.csv");
    MaxLodOfOne(su, "Box_LOD12.csv");
  }

  /** The digit of a name "Box_LOD" + rest, when rest holds no further "_LOD". */
  lemma BoxLodDigit(su: StringUtil, rest: string)
    requires |rest| >= 1 && '_' !in rest
    ensures LodDigit(su, "Box_LOD" + rest) == Some(su.charToInt32(rest[0]) as int)
  {
    var c := "Box_LOD" + rest;
    assert c[3..7] == LodPostfix;
    assert c[4..] == "LOD" + rest;
    NoOccurrenceAfter(c, LodPostfix, 3);
    LodDigitAt(su, c, 3);
    assert CharAt(c, 7) == rest[0];
  }

  /** One more name raises `max_lod` to its digit when that is larger. */
  lemma MaxLodStep(su: StringUtil, files: seq<string>, file: string)
    ensures MaxLod(su, files + [file]) ==
      match LodDigit(su, file)
      case None => MaxLod(su, files)
      case Some(d) => if d > MaxLod(su, files) then d else MaxLod(su, files)
  {
    assert (files + [file])[..|files|] == files;
  }

  /** A listing of one name. */
  lemma MaxLodOfOne(su: StringUtil, file: string)
    ensures MaxLod(su, [file]) == match LodDigit(su, file) case None => 0 case Some(d) => if d > 0 then d else 0
  {
    assert [file][..0] == [];
  }

  /** The LOD digit of a name whose last "_LOD" stands at `k`. */
  lemma LodDigitAt(su: StringUtil, file: string, k: nat)
    requires OccursAt(file, LodPostfix, k)
    requires forall j :: k < j ==> !OccursAt(file, LodPostfix, j)
    ensures LodDigit(su, file) == Some(su.charToInt32(CharAt(file, k + |LodPostfix|)) as int)
  {
    LastOccurrence(file, LodPostfix, k, |file| - |LodPostfix|);
  }

  /** A pattern whose first character does not occur after `k` does not
      occur after `k`. */
  lemma NoOccurrenceAfter(s: string, pat: string, k: nat)
    requires |pat| >= 1 && k < |s| && pat[0] !in s[k + 1..]
    ensures forall j :: k < j ==> !OccursAt(s, pat, j)
  {
    forall j | k < j ensures !OccursAt(s, pat, j) {
      if j + |pat| <= |s| {
        assert s[j] == s[k + 1..][j - k - 1];
        assert s[j] in s[k + 1..];
      }
    }
  }

  /** Searching backwards from `m` finds the occurrence at `k` when there is
      none between them. */
  lemma {:induction false} LastOccurrence(s: string, pat: string, k: nat, m: int)
    requires OccursAt(s, pat, k) && k <= m
    requires forall j :: k < j <= m ==> !OccursAt(s, pat, j)
    ensures FindLastAtOrBefore(s, pat, m) == Some(k)
    decreases m - k
  {
    if m > k {
      LastOccurrence(s, pat, k, m - 1);
    }
  }

  // ---------------------------------------------------------------------
  // Tokenizer (FSceneDataImporter.cpp:105-125)

  /** The items the scan pushes from position `last` of `row` on. */
  function Scan(su: StringUtil, row: string, last: nat): (items: seq<string>)
    requires last <= |row|
    ensures |items| >= 1
    decreases |row| - last
  {
    match FindFirstOf(row, Delimiters, last)
    case None => [row[last..]]
    case Some(found) =>
      if row[found] == ',' then [row[last..found]] + Scan(su, row, found + 1)
      else
        var (item, pos) := su.findFirstBetween(row, last);
        [item] + Scan(su, row, pos + 1)
  }

  /** The columns of one row. */
  function Tokens(su: StringUtil, row: string): seq<string>
  {
    Scan(su, row, 0)
  }

  /** The items the loop has pushed once `last_found` reaches `last` and
      `acc` holds the items so far, at the moment the loop ends. */
  function Pushed(su: StringUtil, row: string, last: nat, acc: seq<string>): seq<string>
    requires last <= |row|
    decreases |row| - last
  {
    match FindFirstOf(row, Delimiters, last)
    case None => acc + [row[last..]]
    case Some(found) =>
      if row[found] == ',' then Pushed(su, row, found + 1, acc + [row[last..found]])
      else
        var (item, pos) := su.findFirstBetween(row, last);
        Pushed(su, row, pos + 1, acc + [item])
  }

  /** The tokenizer loop: `found` and `last_found` walk the row, pushing the
      text before each comma, the quoted item at each quote, and finally the
      rest of the row. */
  method TokenizeRow(su: StringUtil, row: string) returns (items: seq<string>)
    ensures items == Tokens(su, row)
  {
    items := [];
    var lastFound: nat := 0;
    var found := FindFirstOf(row, Delimiters, lastFound);
    while found.Some?
      invariant lastFound <= |row|
      invariant found == FindFirstOf(row, Delimiters, lastFound)
      invariant Pushed(su, row, lastFound, items) == Pushed(su, row, 0, [])
      decreases |row| - lastFound
    {
      if row[found.value] == ',' {
        items := items + [row[lastFound..found.value]];
        lastFound := found.value + 1;
      } else {
        // the character is '"'
        var (item, pos) := su.findFirstBetween(row, lastFound);
        items := items + [item];
        lastFound := pos + 1;  // skip the next ','
      }
      found := FindFirstOf(row, Delimiters, lastFound);
    }
    items := items + [row[lastFound..]];  // the last item
    PushedIsScan(su, row, 0, []);
    assert [] + Tokens(su, row) == Tokens(su, row);
  }

  /** The loop's accumulated items are the reference scan's items. */
  lemma {:induction false} PushedIsScan(su: StringUtil, row: string, last: nat, acc: seq<string>)
    requires last <= |row|
    ensures Pushed(su, row, last, acc) == acc + Scan(su, row, last)
    decreases |row| - last
  {
    match FindFirstOf(row, Delimiters, last)
    case None =>
    case Some(found) =>
      if row[found] == ',' {
        PushedIsScan(su, row, found + 1, acc + [row[last..found]]);
        AppendAssoc(acc, [row[last..found]], Scan(su, row, found + 1));
      } else {
        var (item, pos) := su.findFirstBetween(row, last);
        PushedIsScan(su, row, pos + 1, acc + [item]);
        AppendAssoc(acc, [item], Scan(su, row, pos + 1));
      }
  }

  /** No quote from `last` on. */
  predicate QuoteFree(row: string, last: nat)
    requires last <= |row|
  {
    forall k :: last <= k < |row| ==> row[k] != '"'
  }

  /** Where the scan without quotes goes next: the first comma at or after
      `last`, or nowhere. */
  lemma NextComma(su: StringUtil, row: string, last: nat)
    requires last <= |row| && QuoteFree(row, last)
    ensures FindFirstOf(row, Delimiters, last).None? ==>
      Scan(su, row, last) == [row[last..]] && forall k :: last <= k < |row| ==> row[k] != ','
    ensures FindFirstOf(row, Delimiters, last).Some? ==>
      var found := FindFirstOf(row, Delimiters, last).value;
      row[found] == ',' && (forall k :: last <= k < found ==> row[k] != ',') && QuoteFree(row, found + 1) &&
      Scan(su, row, last) == [row[last..found]] + Scan(su, row, found + 1)
  {
  }

  /** From `last` on, a row without quotes yields one item more than it has
      commas. */
  lemma {:induction false} ScanCount(su: StringUtil, row: string, last: nat)
    requires last <= |row| && QuoteFree(row, last)
    ensures |Scan(su, row, last)| == Count(row[last..], ',') + 1
    decreases |row| - last
  {
    NextComma(su, row, last);
    var r := FindFirstOf(row, Delimiters, last);
    if r.None? {
      CountAbsent(row[last..], ',');
    } else {
      CommaCount(row, last, r.value);
      ScanCount(su, row, r.value + 1);
    }
  }

  /** The commas from `last` on: the first one, at `found`, and those after it. */
  lemma CommaCount(row: string, last: nat, found: nat)
    requires last <= found < |row| && row[found] == ','
    requires forall k :: last <= k < found ==> row[k] != ','
    ensures Count(row[last..], ',') == 1 + Count(row[found + 1..], ',')
  {
    var t, i := row[last..], found - last;
    assert t[..i] == row[last..found] && t[i + 1..] == row[found + 1..];
    CountSplit(t, ',', i);
    CountAbsent(row[last..found], ',');
  }

  /** From `last` on, the items of a row without quotes joined by commas give
      back the text. */
  lemma {:induction false} ScanJoin(su: StringUtil, row: string, last: nat)
    requires last <= |row| && QuoteFree(row, last)
    ensures Join(Scan(su, row, last), ',') == row[last..]
    decreases |row| - last
  {
    NextComma(su, row, last);
    var r := FindFirstOf(row, Delimiters, last);
    if r.Some? {
      var found := r.value;
      ScanJoin(su, row, found + 1);
      JoinCons(row[last..found], Scan(su, row, found + 1), ',');
      SuffixSplit(row, last, found);
    }
  }

  /** From `last` on, no item of a row without quotes holds a comma. */
  lemma {:induction false} ScanItems(su: StringUtil, row: string, last: nat)
    requires last <= |row| && QuoteFree(row, last)
    ensures forall k :: 0 <= k < |Scan(su, row, last)| ==> ',' !in Scan(su, row, last)[k]
    decreases |row| - last
  {
    NextComma(su, row, last);
    var r := FindFirstOf(row, Delimiters, last);
    if r.Some? {
      ScanItems(su, row, r.value + 1);
      assert forall k :: last <= k < r.value ==> row[last..r.value][k - last] == row[k];
    }
  }

  /** From `last` on, the last item of a row without quotes is the text after
      the last comma, emitted even when empty. */
  lemma {:induction false} ScanLastItem(su: StringUtil, row: string, last: nat)
    requires last <= |row| && QuoteFree(row, last)
    ensures var t := Scan(su, row, last)[|Scan(su, row, last)| - 1];
      |t| <= |row| - last && t == row[|row| - |t|..]
    decreases |row| - last
  {
    NextComma(su, row, last);
    var r := FindFirstOf(row, Delimiters, last);
    if r.Some? {
      ScanLastItem(su, row, r.value + 1);
    }
  }

  /** The tokenizer on a row without quotes. */
  lemma TokensWithoutQuotes(su: StringUtil, row: string)
    requires '"' !in row
    ensures |Tokens(su, row)| == Count(row, ',') + 1
    ensures Join(Tokens(su, row), ',') == row
    ensures forall k :: 0 <= k < |Tokens(su, row)| ==> ',' !in Tokens(su, row)[k]
  {
    assert row[0..] == row;
    ScanCount(su, row, 0);
    ScanJoin(su, row, 0);
    ScanItems(su, row, 0);
  }

  /** A backslash is no delimiter: an index list such as `1\2` stays one
      column. */
  lemma IndexListIsOneToken(su: StringUtil)
    ensures Tokens(su, "0,1\\2") == ["0", "1\\2"]
  {
    var r := "0,1\\2";
    assert QuoteFree(r, 0);
    assert FindFirstOf(r, Delimiters, 0) == Some(1);
    assert FindFirstOf(r, Delimiters, 2) == None;
    NextComma(su, r, 0);
    NextComma(su, r, 2);
    assert r[0..1] == "0" && r[2..] == "1\\2";
  }

  /** A trailing comma yields an empty last column. */
  lemma TrailingCommaGivesEmptyToken(su: StringUtil)
    ensures Tokens(su, "7,") == ["7", ""]
  {
    var t := "7,";
    assert QuoteFree(t, 0);
    assert FindFirstOf(t, Delimiters, 0) == Some(1);
    assert FindFirstOf(t, Delimiters, 2) == None;
    NextComma(su, t, 0);
    NextComma(su, t, 2);
    assert t[0..1] == "7" && t[2..] == "";
  }

  // ---------------------------------------------------------------------
  // Raw tables (FSceneDataImporter.cpp:67-93)

  /** What the source needs of the listing and the file contents: each file
      was read and yielded at least one line (an unreadable file leaves an
      empty vector, and `erase(begin())` on it is undefined), and each name
      has a table key. */
  predicate FilesReadable(prefix: string, files: seq<string>, contents: map<string, seq<string>>)
  {
    forall k :: 0 <= k < |files| ==>
      files[k] in contents && |contents[files[k]]| >= 1 && KeyDefined(prefix, files[k])
  }

  /** The map that stores `bodies[k]` under `keys[k]` for k = 0, 1, ... in
      turn, so that a later entry with the same key replaces an earlier one. */
  function Collect(keys: seq<string>, bodies: seq<seq<string>>): map<string, seq<string>>
    requires |keys| == |bodies|
  {
    if keys == [] then map[]
    else Collect(keys[..|keys| - 1], bodies[..|bodies| - 1])[keys[|keys| - 1] := bodies[|bodies| - 1]]
  }

  /** Storing one more entry. */
  lemma CollectStep(keys: seq<string>, bodies: seq<seq<string>>, n: nat)
    requires |keys| == |bodies| && n < |keys|
    ensures Collect(keys[..n + 1], bodies[..n + 1]) == Collect(keys[..n], bodies[..n])[keys[n] := bodies[n]]
  {
    assert keys[..n + 1][..n] == keys[..n] && bodies[..n + 1][..n] == bodies[..n];
  }

  /** Every key of the map is one of the keys stored. */
  lemma {:induction false} CollectKeyOrigin(keys: seq<string>, bodies: seq<seq<string>>, key: string) returns (k: nat)
    requires |keys| == |bodies| && key in Collect(keys, bodies)
    ensures k < |keys| && keys[k] == key
  {
    var n := |keys| - 1;
    if keys[n] == key {
      k := n;
    } else {
      k := CollectKeyOrigin(keys[..n], bodies[..n], key);
    }
  }

  /** Every key stored is a key of the map. */
  lemma {:induction false} CollectHasKey(keys: seq<string>, bodies: seq<seq<string>>, k: nat)
    requires |keys| == |bodies| && k < |keys|
    ensures keys[k] in Collect(keys, bodies)
  {
    var n := |keys| - 1;
    if k < n {
      CollectHasKey(keys[..n], bodies[..n], k);
    }
  }

  /** The entry stored last under a key is the one the map holds. */
  lemma {:induction false} CollectLastWins(keys: seq<string>, bodies: seq<seq<string>>, k: nat)
    requires |keys| == |bodies| && k < |keys|
    requires forall j :: k < j < |keys| ==> keys[j] != keys[k]
    ensures keys[k] in Collect(keys, bodies) && Collect(keys, bodies)[keys[k]] == bodies[k]
  {
    var n := |keys| - 1;
    if k < n {
      CollectLastWins(keys[..n], bodies[..n], k);
    }
  }

  /** The table key of each file. */
  function FileKeys(prefix: string, files: seq<string>, contents: map<string, seq<string>>): (keys: seq<string>)
    requires FilesReadable(prefix, files, contents)
    ensures |keys| == |files|
    ensures forall k :: 0 <= k < |files| ==> keys[k] == TableKey(prefix, files[k])
  {
    seq(|files|, k requires 0 <= k < |files| => TableKey(prefix, files[k]))
  }

  /** The lines of each file, the header line dropped. */
  function FileBodies(prefix: string, files: seq<string>, contents: map<string, seq<string>>): (bodies: seq<seq<string>>)
    requires FilesReadable(prefix, files, contents)
    ensures |bodies| == |files|
    ensures forall k :: 0 <= k < |files| ==> bodies[k] == contents[files[k]][1..]
  {
    seq(|files|, k requires 0 <= k < |files| => contents[files[k]][1..])
  }

  /** `g_tables` after the file loop: each file's lines without the first
      (header) line, under its key; a later file with the same key replaces
      an earlier one. */
  function RawTables(prefix: string, files: seq<string>, contents: map<string, seq<string>>): map<string, seq<string>>
    requires FilesReadable(prefix, files, contents)
  {
    Collect(FileKeys(prefix, files, contents), FileBodies(prefix, files, contents))
  }

  /** Every key present comes from some file. */
  lemma RawTablesKeyOrigin(prefix: string, files: seq<string>, contents: map<string, seq<string>>, key: string)
    returns (k: nat)
    requires FilesReadable(prefix, files, contents)
    requires key in RawTables(prefix, files, contents)
    ensures k < |files| && TableKey(prefix, files[k]) == key
  {
    k := CollectKeyOrigin(FileKeys(prefix, files, contents), FileBodies(prefix, files, contents), key);
  }

  /** Every file's key is present. */
  lemma RawTablesHasKey(prefix: string, files: seq<string>, contents: map<string, seq<string>>, k: nat)
    requires FilesReadable(prefix, files, contents)
    requires k < |files|
    ensures TableKey(prefix, files[k]) in RawTables(prefix, files, contents)
  {
    CollectHasKey(FileKeys(prefix, files, contents), FileBodies(prefix, files, contents), k);
  }

  /** Under each key stand the lines of the last file with that key, header
      dropped: a later file replaces an earlier one. */
  lemma RawTablesLastWins(prefix: string, files: seq<string>, contents: map<string, seq<string>>, k: nat)
    requires FilesReadable(prefix, files, contents)
    requires k < |files|
    requires forall j :: k < j < |files| ==> TableKey(prefix, files[j]) != TableKey(prefix, files[k])
    ensures TableKey(prefix, files[k]) in RawTables(prefix, files, contents)
    ensures RawTables(prefix, files, contents)[TableKey(prefix, files[k])] == contents[files[k]][1..]
  {
    CollectLastWins(FileKeys(prefix, files, contents), FileBodies(prefix, files, contents), k);
  }

  /** The file loop: one key per file, the header line erased. */
  method ReadTables(prefix: string, files: seq<string>, contents: map<string, seq<string>>)
    returns (g: map<string, seq<string>>)
    requires FilesReadable(prefix, files, contents)
    ensures g == RawTables(prefix, files, contents)
  {
    ghost var keys := FileKeys(prefix, files, contents);
    ghost var bodies := FileBodies(prefix, files, contents);
    g := map[];
    for n := 0 to |files|
      invariant g == Collect(keys[..n], bodies[..n])
    {
      CollectStep(keys, bodies, n);
      var table := contents[files[n]];
      table := table[1..];
      var tableName := TableKey(prefix, files[n]);
      g := g[tableName := table];
    }
    assert keys[..|files|] == keys && bodies[..|files|] == bodies;
  }

  // ---------------------------------------------------------------------
  // Clear tables (FSceneDataImporter.cpp:96-129)

  /** The rows of a raw table: empty lines are skipped, every other line is
      tokenized. */
  function ClearRows(su: StringUtil, lines: seq<string>): (rows: seq<seq<string>>)
    ensures |rows| <= |lines|
  {
    if lines == [] then []
    else
      var rows := ClearRows(su, lines[..|lines| - 1]);
      var line := lines[|lines| - 1];
      if line == [] then rows else rows + [Tokens(su, line)]
  }

  /** The non-empty lines, in order. */
  function NonEmptyLines(lines: seq<string>): (r: seq<string>)
    ensures |r| <= |lines|
    ensures forall k :: 0 <= k < |r| ==> r[k] != [] && r[k] in lines
  {
    if lines == [] then []
    else
      var r := NonEmptyLines(lines[..|lines| - 1]);
      if lines[|lines| - 1] == [] then r else r + [lines[|lines| - 1]]
  }

  /** One row per non-empty line, and that row is the line's tokens. */
  lemma {:induction false} ClearRowsAreTokens(su: StringUtil, lines: seq<string>)
    ensures |ClearRows(su, lines)| == |NonEmptyLines(lines)|
    ensures forall k :: 0 <= k < |ClearRows(su, lines)| ==>
      ClearRows(su, lines)[k] == Tokens(su, NonEmptyLines(lines)[k])
  {
    if lines != [] {
      ClearRowsAreTokens(su, lines[..|lines| - 1]);
    }
  }

  /** The row loop for one table. */
  method ExtractRows(su: StringUtil, lines: seq<string>) returns (rows: seq<seq<string>>)
    ensures rows == ClearRows(su, lines)
  {
    rows := [];
    for n := 0 to |lines|
      invariant rows == ClearRows(su, lines[..n])
    {
      assert lines[..n + 1][..n] == lines[..n];
      if lines[n] == [] {
        continue;
      }
      var items := TokenizeRow(su, lines[n]);
      rows := rows + [items];
    }
    assert lines[..|lines|] == lines;
  }

  /** `g_clear_tables`: every raw table tokenized under the same key. */
  function ClearTables(su: StringUtil, g: map<string, seq<string>>): (c: map<string, seq<seq<string>>>)
    ensures c.Keys == g.Keys
  {
    map key | key in g :: ClearRows(su, g[key])
  }

  /** The loop over `g_tables` (its order does not matter: each key is
      visited once and written once). */
  method ExtractTables(su: StringUtil, g: map<string, seq<string>>) returns (c: map<string, seq<seq<string>>>)
    ensures c == ClearTables(su, g)
  {
    c := map[];
    var todo := g.Keys;
    while todo != {}
      invariant todo <= g.Keys
      invariant c.Keys == g.Keys - todo
      invariant forall key :: key in c ==> c[key] == ClearRows(su, g[key])
      decreases todo
    {
      var key :| key in todo;
      var clearTable := ExtractRows(su, g[key]);
      c := c[key := clearTable];
      todo := todo - {key};
    }
  }
}
