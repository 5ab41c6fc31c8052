/**
 Aggregation of the partial result files of a run: files are merged two at a time, always the
 two that sort first, until one is left.

 The object store is a class whose contents change in place. A stored file is the stream of
 items it is read as: a header followed by candidate pairs, each pair identified with its
 rank in the sort order of pairs.
 */
module Aggregation {
  import opened Collections
  import opened MergeCost
  import opened Wrappers

  datatype Item = Header | Pair(rank: int)

  predicate Before(x: Item, y: Item) {
    y.Pair? && (x.Header? || x.rank < y.rank)
  }

  predicate Sorted(s: seq<Item>) {
    forall i, j | 0 <= i < j < |s| :: !Before(s[j], s[i])
  }

  predicate Increasing(s: seq<Item>) {
    forall i, j | 0 <= i < j < |s| :: Before(s[i], s[j])
  }

  /** A result file: a header, then candidate pairs only. */
  predicate IsResult(s: seq<Item>) {
    |s| > 0 && s[0].Header? && forall i | 1 <= i < |s| :: s[i].Pair?
  }

  function Items(s: seq<Item>): set<Item> {
    set x | x in s
  }

  lemma {:induction false} ItemsOfSum(s: seq<Item>, t: seq<Item>)
    ensures Items(s + t) == Items(s) + Items(t)
  {}

  /** After the header, the ranks of the pairs do not fall. */
  ghost predicate RanksInOrder(s: seq<Item>) {
    && s != [] && s[0] == Header && (forall i | 1 <= i < |s| :: s[i].Pair?)
    && forall i, j | 1 <= i < j < |s| :: s[i].rank <= s[j].rank
  }

  /** After the header, the ranks of the pairs rise, so that no pair occurs twice. */
  ghost predicate RanksRise(s: seq<Item>) {
    RanksInOrder(s) && forall i, j | 1 <= i < j < |s| :: s[i].rank < s[j].rank
  }

  lemma {:induction false} RanksOf(s: seq<Item>)
    requires IsResult(s)
    ensures Sorted(s) <==> RanksInOrder(s)
    ensures Increasing(s) <==> RanksRise(s)
  {}

  // ----- The sorted merge of two streams (an external library; only its contract is used) -----

  function MergeSorted(s: seq<Item>, t: seq<Item>): (m: seq<Item>)
    requires Sorted(s) && Sorted(t)
    ensures Sorted(m) && |m| == |s| + |t|
    ensures forall x :: x in m <==> x in s || x in t
  {
    if s == [] then t
    else if t == [] then s
    else if Before(t[0], s[0]) then
      assert t == [t[0]] + t[1..];
      var rest := MergeSorted(s, t[1..]);
      assert forall x | x in rest :: !Before(x, t[0]);
      [t[0]] + rest
    else
      assert s == [s[0]] + s[1..];
      var rest := MergeSorted(s[1..], t);
      assert forall x | x in rest :: !Before(x, s[0]);
      [s[0]] + rest
  }

  /** One header, then the pairs of both files in order. */
  function MergeStreams(s: seq<Item>, t: seq<Item>): (m: seq<Item>)
    requires IsResult(s) && IsResult(t) && Sorted(s) && Sorted(t)
    ensures IsResult(m) && Sorted(m) && RanksInOrder(m) && |m| == |s| + |t| - 1
    ensures Items(m) == Items(s) + Items(t)
  {
    var m := [Header] + MergeSorted(s[1..], t[1..]);
    assert s == [Header] + s[1..] && t == [Header] + t[1..];
    assert forall x :: x in m <==> x in s || x in t;
    assert forall i | 1 <= i < |m| :: m[i] in s[1..] || m[i] in t[1..];
    m
  }

  lemma {:induction false} SortedMergeKeepsAll(s: seq<Item>, t: seq<Item>)
    requires Sorted(s) && Sorted(t)
    ensures multiset(MergeSorted(s, t)) == multiset(s) + multiset(t)
  {
    if s == [] || t == [] {
      assert multiset(MergeSorted(s, t)) == if s == [] then multiset(t) else multiset(s);
    } else if Before(t[0], s[0]) {
      SortedMergeKeepsAll(s, t[1..]);
      assert t == [t[0]] + t[1..];
    } else {
      SortedMergeKeepsAll(s[1..], t);
      assert s == [s[0]] + s[1..];
    }
  }

  /** Every pair is in the merge as often as in both files together. */
  lemma {:induction false} MergeKeepsAll(s: seq<Item>, t: seq<Item>)
    requires IsResult(s) && IsResult(t) && Sorted(s) && Sorted(t)
    ensures multiset(MergeStreams(s, t)) + multiset{Header} == multiset(s) + multiset(t)
  {
    assert s == [Header] + s[1..] && t == [Header] + t[1..];
    SortedMergeKeepsAll(s[1..], t[1..]);
  }

  lemma {:induction false} RepeatedItem(items: seq<Item>, n: nat)
    requires 0 < n < |items| && items[n - 1] == items[n]
    ensures !Increasing(items)
  {
    assert !Before(items[n - 1], items[n]);
  }

  /**
   Drop every item equal to the one before it. The generator asks for a first item before it
   loops, so the stream it is given must have one.
   */
  method UniqueValues(items: seq<Item>) returns (kept: seq<Item>)
    requires |items| > 0
    ensures 1 <= |kept| <= |items| && kept[0] == items[0]
    ensures Items(kept) == Items(items)
    ensures forall i | 0 < i < |kept| :: kept[i] != kept[i - 1]
    ensures Sorted(items) ==> Increasing(kept)
    ensures Increasing(items) ==> kept == items
  {
    var previous := items[0];
    kept := [previous];
    for n := 1 to |items|
      invariant 1 <= |kept| <= n && kept[0] == items[0]
      invariant previous == items[n - 1] == kept[|kept| - 1]
      invariant Items(kept) == Items(items[..n])
      invariant forall i | 0 < i < |kept| :: kept[i] != kept[i - 1]
      invariant Sorted(items) ==> Increasing(kept)
      invariant Increasing(items) ==> kept == items[..n]
    {
      var item := items[n];
      assert items[..n + 1] == items[..n] + [item];
      ItemsOfSum(items[..n], [item]);
      ItemsOfSum(kept, [item]);
      if item != previous {
        ghost var was := kept;
        if Sorted(items) {
          assert !Before(item, previous);
          assert forall i | 0 <= i < |was| :: Before(was[i], item);
        }
        previous := item;
        kept := kept + [item];
      } else {
        assert items[..n][n - 1] == item;
        RepeatedItem(items, n);
      }
    }
    assert items[..|items|] == items;
  }

  // ----- Result files -----

  /** What a comparison task reports: number of pairs, file size, and name in the object store. */
  datatype Report = Report(num: nat, size: Option<nat>, name: Option<nat>)

  datatype Entry = Entry(num: nat, size: nat, name: nat)

  /** Entries compare as tuples. */
  predicate Less(e: Entry, f: Entry) {
    || e.num < f.num
    || (e.num == f.num && e.size < f.size)
    || (e.num == f.num && e.size == f.size && e.name < f.name)
  }

  function Names(files: seq<Entry>): set<nat> {
    set f | f in files :: f.name
  }

  predicate DistinctNames(files: seq<Entry>) {
    forall i, j | 0 <= i < j < |files| :: files[i].name != files[j].name
  }

  function Total(files: seq<Entry>): nat {
    if files == [] then 0 else files[0].num + Total(files[1..])
  }

  function Sizes(files: seq<Entry>): multiset<nat> {
    if files == [] then multiset{} else multiset{files[0].num} + Sizes(files[1..])
  }

  lemma {:induction false} TakeOutTotal(files: seq<Entry>, k: nat)
    requires k < |files|
    ensures Total(files) == Total(Without(files, k)) + files[k].num
  {
    if k == 0 {
      assert Without(files, 0) == files[1..];
    } else {
      TakeOutTotal(files[1..], k - 1);
      assert Without(files, k) == [files[0]] + Without(files[1..], k - 1);
    }
  }

  lemma {:induction false} TakeOutSizes(files: seq<Entry>, k: nat)
    requires k < |files|
    ensures Sizes(files) == Sizes(Without(files, k)) + multiset{files[k].num}
  {
    if k == 0 {
      assert Without(files, 0) == files[1..];
    } else {
      var others := Without(files[1..], k - 1);
      TakeOutSizes(files[1..], k - 1);
      assert Without(files, k) == [files[0]] + others;
      SizesOfFirst(files[0], others);
      Reassociate(multiset{files[0].num}, Sizes(others), multiset{files[k].num});
    }
  }

  lemma {:induction false} SizesOfFirst(f: Entry, others: seq<Entry>)
    ensures Sizes([f] + others) == multiset{f.num} + Sizes(others)
  {
    assert ([f] + others)[1..] == others;
  }

  lemma {:induction false} Reassociate(a: multiset<nat>, b: multiset<nat>, c: multiset<nat>)
    ensures a + (b + c) == (a + b) + c
  {}

  lemma {:induction false} TakeOut(files: seq<Entry>, k: nat)
    requires k < |files| && DistinctNames(files)
    ensures DistinctNames(Without(files, k))
    ensures forall f :: f in files <==> f == files[k] || f in Without(files, k)
    ensures forall f :: f in Without(files, k) ==> f.name != files[k].name
  {}

  lemma {:induction false} PutLast(files: seq<Entry>, f: Entry)
    ensures Total(files + [f]) == Total(files) + f.num
    ensures Sizes(files + [f]) == Sizes(files) + multiset{f.num}
  {
    TakeOutTotal(files + [f], |files|);
    TakeOutSizes(files + [f], |files|);
    assert Without(files + [f], |files|) == files;
  }

  lemma {:induction false} OneFile(f: Entry)
    ensures Total([f]) == f.num && Sizes([f]) == multiset{f.num}
  {}

  lemma {:induction false} SizeOfMember(files: seq<Entry>, num: nat)
    ensures num in Sizes(files) <==> exists f :: f in files && f.num == num
  {
    if files != [] {
      SizeOfMember(files[1..], num);
      assert files == [files[0]] + files[1..];
    }
  }

  /** An entry that sorts first has the smallest number of pairs. */
  lemma {:induction false} FirstIsLeast(files: seq<Entry>, f: Entry)
    requires f in files && forall g | g in files :: !Less(g, f)
    ensures IsLeast(f.num, Sizes(files))
  {
    SizeOfMember(files, f.num);
    forall num | num in Sizes(files) ensures f.num <= num {
      SizeOfMember(files, num);
    }
  }

  /** A report either has pairs and names its file, or has no pairs and no file. */
  predicate Consistent(r: Report) {
    if r.num > 0 then r.size.Some? && r.name.Some? else r.size.None? && r.name.None?
  }

  predicate Complete(reports: seq<Option<Report>>) {
    forall r | r in reports :: r.Some? && Consistent(r.value)
  }

  /** The files to aggregate: one for each report that found pairs. */
  function FilesOf(reports: seq<Option<Report>>): seq<Entry>
    requires Complete(reports)
  {
    if reports == [] then []
    else
      var before, r := FilesOf(reports[..|reports| - 1]), reports[|reports| - 1].value;
      if r.num > 0 then before + [Entry(r.num, r.size.value, r.name.value)] else before
  }

  datatype Collected = Files(files: seq<Entry>) | TypeError | AssertionError

  /** Check the reports in order, stopping at the first that is missing or inconsistent. */
  method CollectFiles(reports: seq<Option<Report>>) returns (c: Collected)
    ensures c.Files? <==> Complete(reports)
    ensures c.Files? <==> forall r | r in reports ::
              && r.Some? && (r.value.num > 0 ==> r.value.size.Some? && r.value.name.Some?)
              && (r.value.num == 0 ==> r.value.size.None? && r.value.name.None?)
    ensures c.Files? ==> c.files == FilesOf(reports)
    ensures !c.Files? ==> exists k | 0 <= k < |reports| ::
      Complete(reports[..k])
      && if c.TypeError? then reports[k].None? else reports[k].Some? && !Consistent(reports[k].value)
  {
    var files := [];
    for n := 0 to |reports|
      invariant Complete(reports[..n]) && files == FilesOf(reports[..n])
    {
      assert reports[n] in reports;
      if reports[n].None? {
        return TypeError;
      }
      var r := reports[n].value;
      if !Consistent(r) {
        return AssertionError;
      }
      assert reports[..n + 1] == reports[..n] + [reports[n]];
      if r.num > 0 {
        files := files + [Entry(r.num, r.size.value, r.name.value)];
      }
    }
    assert reports[..|reports|] == reports;
    return Files(files);
  }

  // ----- The object store -----

  /** Every file of the list is stored, sorted, and holds at most as many pairs as it reports. */
  ghost predicate Holds(objects: map<nat, seq<Item>>, files: seq<Entry>) {
    && DistinctNames(files)
    && forall f | f in files :: f.name in objects && Stored(objects[f.name], f.num)
  }

  /** All items of all the files. */
  ghost function Content(objects: map<nat, seq<Item>>, files: seq<Entry>): set<Item>
    requires Holds(objects, files)
  {
    set f, x | f in files && x in objects[f.name] :: x
  }

  predicate Stored(s: seq<Item>, num: nat) {
    IsResult(s) && Sorted(s) && |s| <= num + 1
  }

  /** `objects'` holds `files'` in place of `files`, and nothing else has changed. */
  ghost predicate Replaced(objects: map<nat, seq<Item>>, files: seq<Entry>, objects': map<nat, seq<Item>>,
                           files': seq<Entry>) {
    && objects'.Keys == objects.Keys - Names(files) + Names(files')
    && (objects.Keys - Names(files)) !! Names(files')
    && forall n | n in objects && n !in Names(files) :: objects'[n] == objects[n]
  }

  // ----- Which merges were performed -----

  /** Two files were read, and a file was stored in their place. */
  datatype MergeDone = MergeDone(first: Entry, second: Entry, result: Entry)

  /** A merge reads and writes as many pairs as its result reports. */
  function Spending(done: seq<MergeDone>): nat {
    if done == [] then 0 else Spending(done[..|done| - 1]) + done[|done| - 1].result.num
  }

  /** The merges lead from `initial` to `files`: each takes two of the files that are there by then. */
  ghost predicate Turns(initial: multiset<Entry>, done: seq<MergeDone>, files: multiset<Entry>)
    decreases |done|, 1
  {
    if done == [] then files == initial
    else exists rest :: MergesLast(initial, done, rest) && files == rest + multiset{done[|done| - 1].result}
  }

  /** Before the last merge there were its two files, and `rest`; the result has all their pairs. */
  ghost predicate MergesLast(initial: multiset<Entry>, done: seq<MergeDone>, rest: multiset<Entry>)
    requires done != []
    decreases |done|, 0
  {
    var m := done[|done| - 1];
    && m.result.num == m.first.num + m.second.num
    && Turns(initial, done[..|done| - 1], (rest + multiset{m.second}) + multiset{m.first})
  }

  lemma {:induction false} OneMoreMerge(initial: multiset<Entry>, done: seq<MergeDone>, rest: multiset<Entry>,
                                        m: MergeDone)
    requires Turns(initial, done, (rest + multiset{m.second}) + multiset{m.first})
    requires m.result.num == m.first.num + m.second.num
    ensures Turns(initial, done + [m], rest + multiset{m.result})
    ensures Spending(done + [m]) == Spending(done) + m.result.num
  {
    ConcatLast(done, m);
    assert MergesLast(initial, done + [m], rest);
  }

  // ----- What any performed merges cost -----

  lemma {:induction false} SizesOfSame(f: seq<Entry>, g: seq<Entry>)
    requires multiset(f) == multiset(g)
    ensures Sizes(f) == Sizes(g)
  {
    if f == [] {
      assert |multiset(g)| == |g|;
    } else {
      var k := SameElement(f, g, 0);
      assert Without(f, 0) == f[1..];
      SizesOfSame(f[1..], Without(g, k));
      TakeOutSizes(g, k);
    }
  }

  lemma {:induction false} CancelEntry(a: multiset<Entry>, b: multiset<Entry>, x: Entry)
    requires a + multiset{x} == b + multiset{x}
    ensures a == b
  {
    forall y ensures a[y] == b[y] {
      assert (a + multiset{x})[y] == (b + multiset{x})[y];
    }
  }

  lemma {:induction false} RestOf(files: seq<Entry>, rest: multiset<Entry>, f: Entry) returns (r: seq<Entry>)
    requires multiset(files) == rest + multiset{f}
    ensures multiset(r) == rest && Sizes(files) == Sizes(r) + multiset{f.num}
  {
    assert f in multiset(files);
    var k :| 0 <= k < |files| && files[k] == f;
    r := Without(files, k);
    WithoutMultiset(files, k);
    TakeOutSizes(files, k);
    CancelEntry(multiset(r), rest, f);
  }

  lemma {:induction false} BothAdded(r: seq<Entry>, first: Entry, second: Entry) returns (files: seq<Entry>)
    ensures multiset(files) == (multiset(r) + multiset{second}) + multiset{first}
    ensures Sizes(files) == (Sizes(r) + multiset{second.num}) + multiset{first.num}
  {
    files := (r + [second]) + [first];
    PutLast(r, second);
    PutLast(r + [second], first);
  }

  /** The files before a merge, and the sizes of those that it has left alone. */
  lemma {:induction false} FilesBefore(files: seq<Entry>, rest: multiset<Entry>, m: MergeDone)
    returns (before: seq<Entry>, others: multiset<nat>)
    requires multiset(files) == rest + multiset{m.result}
    ensures multiset(before) == (rest + multiset{m.second}) + multiset{m.first}
    ensures Sizes(files) == others + multiset{m.result.num}
    ensures Sizes(before) == (others + multiset{m.second.num}) + multiset{m.first.num}
  {
    var r := RestOf(files, rest, m.result);
    before := BothAdded(r, m.first, m.second);
    others := Sizes(r);
  }

  /** An order of merging the files before a merge costs what the merge has spent more. */
  lemma {:induction false} UndoneMerge(t: Order, others: multiset<nat>, x: nat, y: nat, z: nat, sizes: multiset<nat>)
    returns (t': Order)
    requires MergeCost.Files(t) == others + multiset{z} && z == x + y
    requires sizes == (others + multiset{y}) + multiset{x}
    ensures MergeCost.Files(t') == sizes && Cost(t') == Cost(t) + z
  {
    t' := MergedFirst(t, sizes, others, x, y);
  }

  lemma {:induction false} LastMerge(initial: multiset<Entry>, done: seq<MergeDone>, files: multiset<Entry>)
    returns (rest: multiset<Entry>)
    requires Turns(initial, done, files) && done != []
    ensures MergesLast(initial, done, rest) && files == rest + multiset{done[|done| - 1].result}
  {
    rest :| MergesLast(initial, done, rest) && files == rest + multiset{done[|done| - 1].result};
  }

  /** Merges that lead to `files` extend any order of merging `files`, at the cost of what they spend. */
  lemma {:induction false} LogExtendsOrder(initial: seq<Entry>, done: seq<MergeDone>, files: seq<Entry>, t: Order)
    returns (t': Order)
    requires Turns(multiset(initial), done, multiset(files)) && MergeCost.Files(t) == Sizes(files)
    ensures MergeCost.Files(t') == Sizes(initial) && Cost(t') == Cost(t) + Spending(done)
    decreases |done|
  {
    if done == [] {
      SizesOfSame(initial, files);
      t' := t;
    } else {
      var rest := LastMerge(multiset(initial), done, multiset(files));
      var m := done[|done| - 1];
      var before, others := FilesBefore(files, rest, m);
      var t1 := UndoneMerge(t, others, m.first.num, m.second.num, m.result.num, Sizes(before));
      t' := LogExtendsOrder(initial, done[..|done| - 1], before, t1);
    }
  }

  /** Any merges that lead to one file are an order of merging, and spend what that order costs. */
  lemma {:induction false} LogIsAnOrder(initial: seq<Entry>, done: seq<MergeDone>, last: Entry) returns (t: Order)
    requires Turns(multiset(initial), done, multiset{last})
    ensures MergeCost.Files(t) == Sizes(initial) && Cost(t) == Spending(done)
  {
    OneFile(last);
    assert multiset([last]) == multiset{last};
    t := LogExtendsOrder(initial, done, [last], File(last.num));
  }

  /** No other merges that lead from the same files to one file would have spent less. */
  ghost predicate SpendsLeast(initial: seq<Entry>, done: seq<MergeDone>) {
    forall other, last | Turns(multiset(initial), other, multiset{last}) :: Spending(done) <= Spending(other)
  }

  lemma {:induction false} CheapestSpendsLeast(initial: seq<Entry>, done: seq<MergeDone>)
    requires IsCheapest(Sizes(initial), Spending(done))
    ensures SpendsLeast(initial, done)
  {
    forall other, last | Turns(multiset(initial), other, multiset{last}) ensures Spending(done) <= Spending(other) {
      var t := LogIsAnOrder(initial, other, last);
    }
  }

  class ObjectStore {
    var objects: map<nat, seq<Item>>

    /** All merges performed so far. */
    ghost var merges: seq<MergeDone>

    constructor ()
      ensures objects == map[] && merges == []
    {
      objects, merges := map[], [];
    }

    /** A name that no stored object has. */
    method GenerateName() returns (name: nat)
      ensures name !in objects
    {
      name := 0;
      var names := objects.Keys;
      while names != {}
        invariant names <= objects.Keys
        invariant forall m :: m in objects.Keys && m !in names ==> m < name
      {
        var n :| n in names;
        if name <= n {
          name := n + 1;
        }
        names := names - {n};
      }
    }

    /** Merge two stored files into a new one without duplicates, and delete the two. */
    method MergeFiles(file0: Entry, file1: Entry, mergedSize: nat) returns (merged: Entry)
      requires file0.name in objects && Stored(objects[file0.name], file0.num)
      requires file1.name in objects && Stored(objects[file1.name], file1.num)
      modifies this
      ensures MergedPair(old(objects), file0, file1, objects, merged)
      ensures merges == old(merges) + [MergeDone(file0, file1, merged)]
    {
      var totalNum := file0.num + file1.num;
      var stream := MergeStreams(objects[file0.name], objects[file1.name]);
      var name := GenerateName();
      var unique := UniqueValues(stream);
      IncreasingResult(unique);
      objects := objects[name := unique];
      objects := objects - {file0.name, file1.name};
      assert name in objects && objects[name] == unique;
      merged := Entry(totalNum, mergedSize, name);
      merges := merges + [MergeDone(file0, file1, merged)];
    }

    /** Merge the two files that sort first. */
    method MergeTwoFirst(files: seq<Entry>, ghost objects0: map<nat, seq<Item>>, ghost initial: seq<Entry>,
                         ghost done: seq<MergeDone>)
      returns (files': seq<Entry>, ghost m: MergeDone)
      requires MergingAt(objects0, initial, objects, files, done) && |files| > 1
      modifies this
      ensures |files'| == |files| - 1 && merges == old(merges) + [m]
      ensures MergingAt(objects0, initial, objects, files', done + [m])
    {
      var file0, rest0 := PopLeast(files);
      var file1, rest := PopLeast(rest0);
      ghost var before := objects;
      PoppedTwo(before, files, file0, rest0, file1, rest);
      var mergedSize: nat := *;
      var merged := MergeFiles(file0, file1, mergedSize);
      MergeObjects(objects0, initial, before, files, file0, rest0, file1, rest, objects, merged);
      MergePays(initial, files, done, file0, rest0, file1, rest, merged);
      files', m := rest + [merged], MergeDone(file0, file1, merged);
    }

    /** Merge the two files that sort first, over and over, until one is left. */
    method MergeAll(initial: seq<Entry>) returns (last: Entry)
      requires Holds(objects, initial) && |initial| > 0
      modifies this
      ensures old(merges) <= merges
      ensures AllMerged(old(objects), initial, objects, last, merges[|old(merges)|..])
    {
      var files := initial;
      ghost var done := [];
      NothingMerged(objects, initial);
      while |files| > 1
        invariant merges == old(merges) + done
        invariant MergingAt(old(objects), initial, objects, files, done)
        decreases |files|
      {
        ghost var m;
        files, m := MergeTwoFirst(files, old(objects), initial, done);
        done := done + [m];
      }
      assert files == [files[0]];
      last := files[0];
      MergedToOne(old(objects), initial, objects, last, done);
      assert merges[|old(merges)|..] == done;
    }

    /** Store a file that holds only a header. */
    method PutPlaceholder(size: nat) returns (placeholder: Entry)
      modifies `objects
      ensures placeholder.num == 0 && placeholder.name !in old(objects)
      ensures objects == old(objects)[placeholder.name := [Header]]
    {
      var name := GenerateName();
      objects := objects[name := [Header]];
      placeholder := Entry(0, size, name);
    }
  }

  lemma {:induction false} IncreasingResult(s: seq<Item>)
    requires |s| > 0 && s[0].Header? && Increasing(s)
    ensures IsResult(s) && Sorted(s)
  {
    forall i | 1 <= i < |s| ensures s[i].Pair? {
      assert Before(s[0], s[i]);
    }
    forall i, j | 0 <= i < j < |s| ensures !Before(s[j], s[i]) {
      assert Before(s[i], s[j]);
    }
  }

  ghost predicate Popped(files: seq<Entry>, least: Entry, rest: seq<Entry>) {
    && (exists k | 0 <= k < |files| :: least == files[k] && rest == Without(files, k))
    && (forall f | f in files :: !Less(f, least))
  }

  lemma {:induction false} PoppedOne(files: seq<Entry>, least: Entry, rest: seq<Entry>)
    requires DistinctNames(files) && Popped(files, least, rest)
    ensures |rest| == |files| - 1 && DistinctNames(rest) && least in files
    ensures forall f :: f in files <==> f == least || f in rest
    ensures forall f :: f in rest ==> f.name != least.name
    ensures Total(files) == Total(rest) + least.num
    ensures Sizes(files) == Sizes(rest) + multiset{least.num} && IsLeast(least.num, Sizes(files))
  {
    var k :| 0 <= k < |files| && least == files[k] && rest == Without(files, k);
    TakeOut(files, k);
    TakeOutTotal(files, k);
    TakeOutSizes(files, k);
    FirstIsLeast(files, least);
  }

  lemma {:induction false} PoppedTwo(objects: map<nat, seq<Item>>, files: seq<Entry>,
                                     file0: Entry, rest0: seq<Entry>, file1: Entry, rest: seq<Entry>)
    requires Holds(objects, files) && Popped(files, file0, rest0) && Popped(rest0, file1, rest)
    ensures |rest| == |files| - 2 && Holds(objects, rest)
    ensures file0 in files && file1 in files && file0.name != file1.name
    ensures forall f :: f in files <==> f == file0 || f == file1 || f in rest
    ensures forall f :: f in rest ==> f.name != file0.name && f.name != file1.name
    ensures Total(files) == Total(rest) + file0.num + file1.num
  {
    PoppedOne(files, file0, rest0);
    PoppedOne(rest0, file1, rest);
  }

  lemma {:induction false} PoppedMultiset(files: seq<Entry>, least: Entry, rest: seq<Entry>)
    requires Popped(files, least, rest)
    ensures multiset(files) == multiset(rest) + multiset{least}
  {
    var k :| 0 <= k < |files| && least == files[k] && rest == Without(files, k);
    WithoutMultiset(files, k);
  }

  lemma {:induction false} PoppedSizes(files: seq<Entry>, file0: Entry, rest0: seq<Entry>, file1: Entry,
                                       rest: seq<Entry>)
    requires DistinctNames(files) && Popped(files, file0, rest0) && Popped(rest0, file1, rest)
    ensures TwoLeast(Sizes(files), Sizes(rest), file0.num, file1.num)
  {
    PoppedOne(files, file0, rest0);
    PoppedOne(rest0, file1, rest);
  }

  /** Two of the files have been merged into `merged`, which is stored in their place. */
  ghost predicate MergedPair(objects: map<nat, seq<Item>>, file0: Entry, file1: Entry,
                             objects': map<nat, seq<Item>>, merged: Entry)
  {
    && file0.name in objects && file1.name in objects && merged.name !in objects
    && merged.num == file0.num + file1.num
    && objects'.Keys == objects.Keys - {file0.name, file1.name} + {merged.name}
    && (forall n | n in objects && n in objects' :: objects'[n] == objects[n])
    && Stored(objects'[merged.name], merged.num) && Increasing(objects'[merged.name])
    && Items(objects'[merged.name]) == Items(objects[file0.name]) + Items(objects[file1.name])
  }

  lemma {:induction false} Pushed(objects: map<nat, seq<Item>>, objects': map<nat, seq<Item>>, files: seq<Entry>,
                                  file0: Entry, file1: Entry, rest: seq<Entry>, merged: Entry)
    requires Holds(objects, files) && Holds(objects, rest) && MergedPair(objects, file0, file1, objects', merged)
    requires forall f :: f in files <==> f == file0 || f == file1 || f in rest
    requires forall f :: f in rest ==> f.name != file0.name && f.name != file1.name
    ensures Holds(objects', rest + [merged]) && Replaced(objects, files, objects', rest + [merged])
  {
    var files' := rest + [merged];
    assert forall f :: f in files' <==> f in rest || f == merged;
    assert Names(files) == Names(rest) + {file0.name, file1.name};
    assert Names(files') == Names(rest) + {merged.name};
  }

  lemma {:induction false} PushedContent(objects: map<nat, seq<Item>>, objects': map<nat, seq<Item>>, files: seq<Entry>,
                                         file0: Entry, file1: Entry, rest: seq<Entry>, merged: Entry)
    requires Holds(objects, files) && Holds(objects', rest + [merged])
    requires MergedPair(objects, file0, file1, objects', merged)
    requires forall f :: f in files <==> f == file0 || f == file1 || f in rest
    requires forall f :: f in rest ==> f.name != file0.name && f.name != file1.name
    ensures Content(objects', rest + [merged]) == Content(objects, files)
  {
    var files' := rest + [merged];
    assert forall f :: f in files' <==> f in rest || f == merged;
    forall x ensures x in objects'[merged.name] <==> x in objects[file0.name] || x in objects[file1.name] {
      assert x in Items(objects'[merged.name]) <==> x in Items(objects[file0.name]) + Items(objects[file1.name]);
    }
  }

  lemma {:induction false} ReplacedAgain(o1: map<nat, seq<Item>>, f1: seq<Entry>, o2: map<nat, seq<Item>>,
                                         f2: seq<Entry>,
                                         o3: map<nat, seq<Item>>, f3: seq<Entry>)
    requires Replaced(o1, f1, o2, f2) && Replaced(o2, f2, o3, f3)
    ensures Replaced(o1, f1, o3, f3)
  {}

  /** Where the merge loop stands: `files` is what `initial` has become. */
  ghost predicate Merging(objects0: map<nat, seq<Item>>, initial: seq<Entry>,
                          objects: map<nat, seq<Item>>, files: seq<Entry>)
  {
    && 0 < |files| <= |initial|
    && Total(files) == Total(initial)
    && Holds(objects0, initial) && Holds(objects, files)
    && Replaced(objects0, initial, objects, files)
    && Content(objects, files) == Content(objects0, initial)
    && (|files| == |initial| ==> files == initial && objects == objects0)
    && (|files| < |initial| ==> Increasing(objects[files[|files| - 1].name]))
  }

  /** Where it stands, after which merges, and what they have cost. */
  ghost predicate MergingAt(objects0: map<nat, seq<Item>>, initial: seq<Entry>, objects: map<nat, seq<Item>>,
                            files: seq<Entry>, done: seq<MergeDone>) {
    Merging(objects0, initial, objects, files) && PaidFor(initial, files, done)
  }

  ghost predicate PaidFor(initial: seq<Entry>, files: seq<Entry>, done: seq<MergeDone>) {
    Turns(multiset(initial), done, multiset(files)) && Spent(Sizes(initial), Sizes(files), Spending(done))
  }

  lemma {:induction false} NothingMerged(objects: map<nat, seq<Item>>, initial: seq<Entry>)
    requires Holds(objects, initial) && |initial| > 0
    ensures MergingAt(objects, initial, objects, initial, [])
  {
    assert Names(initial) !! objects.Keys - Names(initial);
  }

  lemma {:induction false} MergeObjects(objects0: map<nat, seq<Item>>, initial: seq<Entry>,
                                        objects: map<nat, seq<Item>>, files: seq<Entry>,
                                        file0: Entry, rest0: seq<Entry>, file1: Entry, rest: seq<Entry>,
                                        objects': map<nat, seq<Item>>, merged: Entry)
    requires Merging(objects0, initial, objects, files)
    requires Popped(files, file0, rest0) && Popped(rest0, file1, rest)
    requires MergedPair(objects, file0, file1, objects', merged)
    ensures Merging(objects0, initial, objects', rest + [merged])
  {
    PoppedTwo(objects, files, file0, rest0, file1, rest);
    Pushed(objects, objects', files, file0, file1, rest, merged);
    PushedContent(objects, objects', files, file0, file1, rest, merged);
    ReplacedAgain(objects0, initial, objects, files, objects', rest + [merged]);
    PutLast(rest, merged);
  }

  lemma {:induction false} PushedSizes(rest: seq<Entry>, merged: Entry, x: nat, y: nat)
    requires merged.num == x + y
    ensures Sizes(rest + [merged]) == Sizes(rest) + multiset{x + y}
  {
    PutLast(rest, merged);
  }

  lemma {:induction false} SpentMerging(initial: seq<Entry>, files: seq<Entry>, cost: nat, rest: seq<Entry>,
                                        merged: Entry, x: nat, y: nat)
    requires TwoLeast(Sizes(files), Sizes(rest), x, y) && merged.num == x + y
    requires Spent(Sizes(initial), Sizes(files), cost)
    ensures Spent(Sizes(initial), Sizes(rest + [merged]), cost + merged.num)
  {
    PushedSizes(rest, merged, x, y);
    SpentStep(Sizes(initial), Sizes(files), cost, Sizes(rest), x, y, Sizes(rest + [merged]), cost + merged.num);
  }

  lemma {:induction false} SpentPopping(initial: seq<Entry>, files: seq<Entry>, cost: nat, file0: Entry,
                                        rest0: seq<Entry>, file1: Entry, rest: seq<Entry>, merged: Entry)
    requires DistinctNames(files) && Popped(files, file0, rest0) && Popped(rest0, file1, rest)
    requires merged.num == file0.num + file1.num && Spent(Sizes(initial), Sizes(files), cost)
    ensures Spent(Sizes(initial), Sizes(rest + [merged]), cost + merged.num)
  {
    PoppedSizes(files, file0, rest0, file1, rest);
    SpentMerging(initial, files, cost, rest, merged, file0.num, file1.num);
  }

  lemma {:induction false} TurnsMerging(initial: multiset<Entry>, files: seq<Entry>, done: seq<MergeDone>, file0: Entry,
                                        rest0: seq<Entry>, file1: Entry, rest: seq<Entry>, merged: Entry)
    requires Popped(files, file0, rest0) && Popped(rest0, file1, rest)
    requires merged.num == file0.num + file1.num && Turns(initial, done, multiset(files))
    ensures Turns(initial, done + [MergeDone(file0, file1, merged)], multiset(rest + [merged]))
    ensures Spending(done + [MergeDone(file0, file1, merged)]) == Spending(done) + merged.num
  {
    PoppedMultiset(files, file0, rest0);
    PoppedMultiset(rest0, file1, rest);
    OneMoreMerge(initial, done, multiset(rest), MergeDone(file0, file1, merged));
  }

  lemma {:induction false} MergePays(initial: seq<Entry>, files: seq<Entry>, done: seq<MergeDone>, file0: Entry,
                                     rest0: seq<Entry>, file1: Entry, rest: seq<Entry>, merged: Entry)
    requires PaidFor(initial, files, done) && DistinctNames(files)
    requires Popped(files, file0, rest0) && Popped(rest0, file1, rest) && merged.num == file0.num + file1.num
    ensures PaidFor(initial, rest + [merged], done + [MergeDone(file0, file1, merged)])
  {
    SpentPopping(initial, files, Spending(done), file0, rest0, file1, rest, merged);
    TurnsMerging(multiset(initial), files, done, file0, rest0, file1, rest, merged);
  }

  /**
   One file has taken the place of the initial files. It holds all their items, is reported with
   the sum of their numbers, and is free of duplicates unless it is the only initial file, which
   is left as it is. The merges performed lead from the initial files to that one, and no order of
   merging two files at a time would have cost less than they did.
   */
  ghost predicate AllMerged(objects0: map<nat, seq<Item>>, initial: seq<Entry>, objects: map<nat, seq<Item>>,
                            last: Entry, done: seq<MergeDone>) {
    && last.num == Total(initial)
    && Holds(objects0, initial) && Holds(objects, [last]) && Replaced(objects0, initial, objects, [last])
    && Content(objects, [last]) == Content(objects0, initial)
    && (|initial| == 1 ==> last == initial[0] && objects == objects0)
    && (|initial| > 1 ==> Increasing(objects[last.name]) && RanksRise(objects[last.name]))
    && Turns(multiset(initial), done, multiset{last}) && IsCheapest(Sizes(initial), Spending(done))
    && SpendsLeast(initial, done)
  }

  lemma {:induction false} MergedToOne(objects0: map<nat, seq<Item>>, initial: seq<Entry>,
                                       objects: map<nat, seq<Item>>, last: Entry, done: seq<MergeDone>)
    requires MergingAt(objects0, initial, objects, [last], done)
    ensures AllMerged(objects0, initial, objects, last, done)
  {
    OneFile(last);
    NothingToMerge(last.num);
    assert IsCheapest(Sizes(initial), Spending(done) + 0);
    CheapestSpendsLeast(initial, done);
    assert last in [last];
    RanksOf(objects[last.name]);
  }

  /** Remove the entry that sorts first. */
  method PopLeast(files: seq<Entry>) returns (least: Entry, rest: seq<Entry>)
    requires |files| > 0
    ensures Popped(files, least, rest)
    ensures forall f | f in files ::
              least.num < f.num
              || (least.num == f.num && (least.size < f.size || (least.size == f.size && least.name <= f.name)))
  {
    var k := 0;
    for i := 1 to |files|
      invariant 0 <= k < i
      invariant forall j | 0 <= j < i :: !Less(files[j], files[k])
    {
      if Less(files[i], files[k]) {
        k := i;
      }
    }
    least, rest := files[k], Without(files, k);
  }

  datatype Outcome = Aggregated(file: Entry) | Failed

  /**
   Aggregate the reports of all comparison tasks into one stored file. A missing list, a missing
   report or an inconsistent one stops the aggregation before any file is touched.
   */
  method AggregateComparisons(mc: ObjectStore, results: Option<seq<Option<Report>>>, emptySize: nat)
    returns (r: Outcome)
    requires results.Some? && Complete(results.value) ==> Holds(mc.objects, FilesOf(results.value))
    modifies mc
    ensures r.Aggregated? <==> results.Some? && Complete(results.value)
    ensures r.Failed? ==> mc.objects == old(mc.objects) && mc.merges == old(mc.merges)
    ensures r.Aggregated? && FilesOf(results.value) != [] ==>
              && old(mc.merges) <= mc.merges
              && AllMerged(old(mc.objects), FilesOf(results.value), mc.objects, r.file, mc.merges[|old(mc.merges)|..])
    ensures r.Aggregated? && FilesOf(results.value) == [] ==>
              && r.file.num == 0 && r.file.name !in old(mc.objects) && mc.merges == old(mc.merges)
              && mc.objects == old(mc.objects)[r.file.name := [Header]]
    ensures r.Aggregated? ==> IsSummary(old(mc.objects), FilesOf(results.value), mc.objects, r.file)
  {
    if results.None? {
      return Failed;
    }
    var collected := CollectFiles(results.value);
    if !collected.Files? {
      return Failed;
    }
    var files := collected.files;
    if files == [] {
      var placeholder := mc.PutPlaceholder(emptySize);
      SummaryOfNone(old(mc.objects), mc.objects, placeholder);
      r := Aggregated(placeholder);
    } else {
      var last := mc.MergeAll(files);
      SummaryOfMerged(old(mc.objects), files, mc.objects, last, mc.merges[|old(mc.merges)|..]);
      r := Aggregated(last);
    }
  }

  /**
   The file holds exactly the items of all files and a header, in a correct order, and no more than
   its number says.
   */
  ghost predicate IsSummary(objects0: map<nat, seq<Item>>, files: seq<Entry>, objects: map<nat, seq<Item>>,
                            file: Entry) {
    && Holds(objects0, files) && Holds(objects, [file]) && file.num == Total(files)
    && Items(objects[file.name]) == Content(objects0, files) + {Header}
    && |objects[file.name]| <= Total(files) + 1
    && RanksInOrder(objects[file.name]) && (|files| != 1 ==> RanksRise(objects[file.name]))
  }

  lemma {:induction false} SummaryOfNone(objects0: map<nat, seq<Item>>, objects: map<nat, seq<Item>>, file: Entry)
    requires file.num == 0 && file.name in objects && objects[file.name] == [Header]
    ensures IsSummary(objects0, [], objects, file)
  {
    assert file in [file];
  }

  lemma {:induction false} SummaryOfMerged(objects0: map<nat, seq<Item>>, files: seq<Entry>,
                                           objects: map<nat, seq<Item>>, file: Entry, done: seq<MergeDone>)
    requires files != [] && AllMerged(objects0, files, objects, file, done)
    ensures IsSummary(objects0, files, objects, file)
  {
    ContentOfOne(objects, file);
    assert file in [file];
    RanksOf(objects[file.name]);
  }

  lemma {:induction false} ContentOfOne(objects: map<nat, seq<Item>>, f: Entry)
    requires Holds(objects, [f])
    ensures Content(objects, [f]) == Items(objects[f.name]) && Header in Content(objects, [f])
  {
    assert f in [f] && objects[f.name][0] in objects[f.name];
  }
}
