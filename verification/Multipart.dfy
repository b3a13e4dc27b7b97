/**
 Multipart uploads: the server's part count and part numbers
 (backend/src/infrastructure/storage.py), the browser's slices
 (frontend/src/infrastructure/api/uploads.ts) and the object the store puts together from them.
 */
module Multipart {
  import opened Domain
  import opened Sorting

  type Byte = nat

  datatype UploadTarget = SinglePut | Parts(partSize: nat, numbers: seq<nat>)

  datatype CompletedPart = CompletedPart(number: nat, etag: nat)

  // ---- the server ----

  // Python's (size + part - 1) // part, for non-negative sizes.
  function PartCount(size: nat, partSize: nat): nat
    requires 0 < partSize
  {
    (size + partSize - 1) / partSize
  }

  function UpTo(n: nat): (r: seq<nat>)
    ensures |r| == n && forall i | 0 <= i < n :: r[i] == i + 1
  {
    seq(n, i requires 0 <= i => i + 1)
  }

  method CreateUploadTarget(size: nat, threshold: nat, partSize: nat) returns (target: UploadTarget)
    requires 0 < partSize
    ensures target == if threshold <= size then Parts(partSize, UpTo(PartCount(size, partSize))) else SinglePut
  {
    if size < threshold {
      return SinglePut;
    }
    var partCount := (size + partSize - 1) / partSize;
    var parts: seq<nat> := [];
    for partNumber := 1 to partCount + 1
      invariant parts == UpTo(partNumber - 1)
    {
      parts := parts + [partNumber];
    }
    return Parts(partSize, parts);
  }

  // ---- the browser ----

  function Start(index: nat, partSize: nat): nat { index * partSize }

  // partBounds for a descriptor without bounds of its own.
  function End(index: nat, partSize: nat, size: nat): nat {
    if size <= index * partSize + partSize then size else index * partSize + partSize
  }

  // Blob.slice clamps.
  function Slice(file: seq<Byte>, start: nat, end: nat): seq<Byte> {
    var e := if |file| < end then |file| else end;
    if start < e then file[start..e] else []
  }

  function PartOf(file: seq<Byte>, index: nat, partSize: nat): seq<Byte> {
    Slice(file, Start(index, partSize), End(index, partSize, |file|))
  }

  // The first n parts one after the other.
  function FirstParts(file: seq<Byte>, n: nat, partSize: nat): seq<Byte> {
    if n == 0 then [] else FirstParts(file, n - 1, partSize) + PartOf(file, n - 1, partSize)
  }

  lemma MulLe(a: nat, b: nat, p: nat)
    requires a <= b
    ensures a * p <= b * p
  {}

  // The parts of a file start inside it, and one more part would not.
  lemma CountCovers(size: nat, partSize: nat)
    requires 0 < partSize
    ensures size <= PartCount(size, partSize) * partSize
    ensures forall i | 0 <= i < PartCount(size, partSize) :: i * partSize < size
  {
    var n := PartCount(size, partSize);
    var x := size + partSize - 1;
    assert x == n * partSize + x % partSize;
    forall i | 0 <= i < n ensures i * partSize < size {
      MulLe(i, n - 1, partSize);
      assert (n - 1) * partSize == n * partSize - partSize;
    }
  }

  lemma NextStart(i: nat, partSize: nat)
    ensures (i + 1) * partSize == i * partSize + partSize
  {}

  /** Every part is non-empty, lies inside the file, starts where the one before ends, and is full unless it is the last. */
  lemma PartShape(file: seq<Byte>, index: nat, partSize: nat)
    requires 0 < partSize && index < PartCount(|file|, partSize)
    ensures Start(index, partSize) < End(index, partSize, |file|) <= |file|
    ensures PartOf(file, index, partSize) == file[Start(index, partSize)..End(index, partSize, |file|)] != []
    ensures index + 1 < PartCount(|file|, partSize) ==>
              |PartOf(file, index, partSize)| == partSize && End(index, partSize, |file|) == Start(index + 1, partSize)
    ensures index + 1 == PartCount(|file|, partSize) ==>
              End(index, partSize, |file|) == |file| && |PartOf(file, index, partSize)| <= partSize
  {
    CountCovers(|file|, partSize);
    NextStart(index, partSize);
    assert index * partSize < |file|;
    if index + 1 < PartCount(|file|, partSize) { assert (index + 1) * partSize < |file|; }
  }

  // The first n parts are the file up to where part n would start.
  lemma {:induction false} PartsArePrefix(file: seq<Byte>, n: nat, partSize: nat)
    requires 0 < partSize && n <= PartCount(|file|, partSize)
    ensures FirstParts(file, n, partSize) == if n * partSize <= |file| then file[..n * partSize] else file
  {
    hide PartCount, PartOf;
    CountCovers(|file|, partSize);
    if n == 0 {
      assert 0 * partSize == 0;
    } else {
      PartsArePrefix(file, n - 1, partSize);
      PartShape(file, n - 1, partSize);
      NextStart(n - 1, partSize);
      assert (n - 1) * partSize < |file|;
      var s, e := Start(n - 1, partSize), End(n - 1, partSize, |file|);
      assert file[..s] + file[s..e] == file[..e];
      assert file[..|file|] == file;
    }
  }

  /** The parts tile the file: put together in part order they are the file, for every size and part size. */
  lemma PartsTile(file: seq<Byte>, partSize: nat)
    requires 0 < partSize
    ensures FirstParts(file, PartCount(|file|, partSize), partSize) == file
  {
    var n := PartCount(|file|, partSize);
    PartsArePrefix(file, n, partSize);
    CountCovers(|file|, partSize);
    assert file[..|file|] == file;
  }

  // ---- the store ----

  function NumberOf(p: CompletedPart): nat { p.number }

  predicate InOrder(parts: seq<CompletedPart>) { Ordered(parts, NumberOf) }

  function Numbers(parts: seq<CompletedPart>): (r: seq<nat>)
    ensures |r| == |parts| && forall i | 0 <= i < |r| :: r[i] == parts[i].number
  {
    seq(|parts|, i requires 0 <= i < |parts| => parts[i].number)
  }

  lemma Cancel<T>(a: multiset<T>, b: multiset<T>, m: multiset<T>)
    requires a + m == b + m
    ensures a == b
  {
    assert a == (a + m) - m && b == (b + m) - m;
  }

  lemma NumbersSplit(a: seq<CompletedPart>, x: CompletedPart, b: seq<CompletedPart>)
    ensures multiset(Numbers(a + [x] + b)) == multiset(Numbers(a + b)) + multiset{x.number}
  {
    assert Numbers(a + [x] + b) == Numbers(a) + [x.number] + Numbers(b);
    assert Numbers(a + b) == Numbers(a) + Numbers(b);
  }

  lemma {:induction false} NumbersMultiset(a: seq<CompletedPart>, b: seq<CompletedPart>)
    requires multiset(a) == multiset(b)
    ensures multiset(Numbers(a)) == multiset(Numbers(b))
  {
    if a == [] {
      assert |multiset(a)| == |multiset(b)|;
    } else {
      var x := a[|a| - 1];
      var s := a[..|a| - 1];
      assert a == s + [x];
      assert x in multiset(b);
      var k :| 0 <= k < |b| && b[k] == x;
      var t := b[..k] + b[k + 1..];
      assert b == b[..k] + [x] + b[k + 1..];
      assert multiset(a) == multiset(s) + multiset{x} && multiset(b) == multiset(t) + multiset{x};
      Cancel(multiset(s), multiset(t), multiset{x});
      NumbersMultiset(s, t);
      NumbersSplit(b[..k], x, b[k + 1..]);
      assert Numbers(a) == Numbers(s) + [x.number];
    }
  }

  predicate Ascending(s: seq<nat>) { forall i, j | 0 <= i < j < |s| :: s[i] <= s[j] }

  lemma LastIsGreatest(s: seq<nat>, n: nat)
    requires 0 < n && multiset(s) == multiset(UpTo(n)) && Ascending(s)
    ensures |s| == n && s[n - 1] == n
  {
    assert |multiset(s)| == |multiset(UpTo(n))|;
    assert UpTo(n)[n - 1] in multiset(UpTo(n));
    assert n in multiset(s);
    var k :| 0 <= k < n && s[k] == n;
    assert s[n - 1] in multiset(UpTo(n));
  }

  lemma WithoutLast(s: seq<nat>)
    requires s != []
    ensures multiset(s) == multiset(s[..|s| - 1]) + multiset{s[|s| - 1]}
  {
    assert s == s[..|s| - 1] + [s[|s| - 1]];
  }

  // An ordered list of the numbers 1..n, each once, is 1..n.
  lemma {:induction false} OrderedNumbers(s: seq<nat>, n: nat)
    requires multiset(s) == multiset(UpTo(n)) && Ascending(s)
    ensures s == UpTo(n)
    decreases n
  {
    if n == 0 {
      assert |multiset(s)| == |multiset(UpTo(0))|;
    } else {
      LastIsGreatest(s, n);
      var short := s[..n - 1];
      assert UpTo(n)[..n - 1] == UpTo(n - 1);
      WithoutLast(s);
      WithoutLast(UpTo(n));
      Cancel(multiset(short), multiset(UpTo(n - 1)), multiset{n});
      OrderedNumbers(short, n - 1);
    }
  }

  class MultipartStore {
    // What was put to each part number, and its tag.
    var stored: map<nat, seq<Byte>>
    var assembled: Option<seq<Byte>>

    constructor ()
      ensures stored == map[] && assembled == None
    {
      stored := map[];
      assembled := None;
    }

    method PutPart(number: nat, body: seq<Byte>) returns (etag: nat)
      modifies `stored
      ensures stored == old(stored)[number := body]
    {
      stored := stored[number := body];
      etag := *;
    }

    // complete_upload: the parts in number order become the object; the store refuses a part it does not have.
    method CompleteUpload(parts: seq<CompletedPart>) returns (ok: bool, ghost order: seq<CompletedPart>)
      modifies `assembled
      ensures ok == (parts != [] && forall p | p in parts :: p.number in stored)
      ensures !ok ==> assembled == old(assembled)
      ensures ok ==> InOrder(order) && multiset(order) == multiset(parts) && (forall p | p in order :: p.number in stored)
                     && assembled == Some(Joined(stored, Numbers(order)))
    {
      order := [];
      if parts == [] || !forall p | p in parts :: p.number in stored {
        return false, order;
      }
      var sorted := Sort(parts, NumberOf);
      forall p | p in sorted ensures p.number in stored {
        assert p in multiset(sorted);
        assert p in multiset(parts);
      }
      assembled := Some(Joined(stored, Numbers(sorted)));
      return true, sorted;
    }
  }

  function Joined(stored: map<nat, seq<Byte>>, numbers: seq<nat>): seq<Byte>
    requires forall n | n in numbers :: n in stored
  {
    if numbers == [] then []
    else Joined(stored, numbers[..|numbers| - 1]) + stored[numbers[|numbers| - 1]]
  }

  predicate IsStored(stored: map<nat, seq<Byte>>, file: seq<Byte>, i: nat, partSize: nat) {
    i + 1 in stored && stored[i + 1] == PartOf(file, i, partSize)
  }

  lemma NumbersStored(stored: map<nat, seq<Byte>>, file: seq<Byte>, n: nat, partSize: nat)
    requires forall i | 0 <= i < n :: IsStored(stored, file, i, partSize)
    ensures forall m | m in UpTo(n) :: m in stored
  {
    forall m | m in UpTo(n) ensures m in stored {
      var i :| 0 <= i < n && UpTo(n)[i] == m;
      assert IsStored(stored, file, i, partSize);
    }
  }

  lemma {:induction false} JoinedParts(stored: map<nat, seq<Byte>>, file: seq<Byte>, n: nat, partSize: nat)
    requires forall i | 0 <= i < n :: IsStored(stored, file, i, partSize)
    ensures forall m | m in UpTo(n) :: m in stored
    ensures Joined(stored, UpTo(n)) == FirstParts(file, n, partSize)
  {
    NumbersStored(stored, file, n, partSize);
    if n > 0 {
      JoinedParts(stored, file, n - 1, partSize);
      assert UpTo(n)[..n - 1] == UpTo(n - 1);
      assert IsStored(stored, file, n - 1, partSize);
    }
  }

  // uploadParts
  method UploadParts(store: MultipartStore, file: seq<Byte>, target: UploadTarget) returns (completed: seq<CompletedPart>)
    requires target.Parts?
    requires forall i, j | 0 <= i < j < |target.numbers| :: target.numbers[i] != target.numbers[j]
    modifies store`stored
    ensures Numbers(completed) == target.numbers
    ensures forall i | 0 <= i < |target.numbers| ::
              target.numbers[i] in store.stored && store.stored[target.numbers[i]] == PartOf(file, i, target.partSize)
  {
    completed := [];
    for index := 0 to |target.numbers|
      invariant |completed| == index && Numbers(completed) == target.numbers[..index]
      invariant forall i | 0 <= i < index ::
                  target.numbers[i] in store.stored && store.stored[target.numbers[i]] == PartOf(file, i, target.partSize)
    {
      var start, end := Start(index, target.partSize), End(index, target.partSize, |file|);
      var body := Slice(file, start, end);
      var etag := store.PutPart(target.numbers[index], body);
      completed := completed + [CompletedPart(target.numbers[index], etag)];
    }
    assert target.numbers[..|target.numbers|] == target.numbers;
  }

  // The same parts reported in some other order.
  method Reported(completed: seq<CompletedPart>) returns (parts: seq<CompletedPart>)
    ensures multiset(parts) == multiset(completed)
  {
    parts := completed;
    var n: nat := *;
    if 0 <= n <= |completed| {
      parts := completed[n..] + completed[..n];
      assert completed == completed[..n] + completed[n..];
    }
  }

  /**
   End to end: a file above the threshold, cut by the browser into the parts the server asked for and
   completed with its part list in any order, is stored as it was.
   */
  method UploadFile(file: seq<Byte>, threshold: nat, partSize: nat) returns (store: MultipartStore, ok: bool)
    requires 0 < partSize && 0 < |file| && threshold <= |file|
    ensures fresh(store) && ok && store.assembled == Some(file)
  {
    hide PartOf, PartCount, Joined, InOrder, FirstParts, Ascending;
    store := new MultipartStore();
    var target := CreateUploadTarget(|file|, threshold, partSize);
    ghost var n := PartCount(|file|, partSize);
    SomeParts(|file|, partSize);
    var completed := UploadParts(store, file, target);
    var parts := Reported(completed);
    NumbersMultiset(parts, completed);
    AllStored(store.stored, parts, n);
    assert |multiset(parts)| == |multiset(completed)|;
    ghost var order;
    ok, order := store.CompleteUpload(parts);
    NumbersMultiset(order, parts);
    OrderIncreases(order);
    OrderedNumbers(Numbers(order), n);
    forall i | 0 <= i < n ensures IsStored(store.stored, file, i, partSize) {
      assert target.numbers[i] == i + 1;
    }
    JoinedParts(store.stored, file, n, partSize);
    PartsTile(file, partSize);
  }

  lemma OrderIncreases(parts: seq<CompletedPart>)
    requires InOrder(parts)
    ensures Ascending(Numbers(parts))
  {}

  lemma SomeParts(size: nat, partSize: nat)
    requires 0 < partSize && 0 < size
    ensures 0 < PartCount(size, partSize)
  {
    CountCovers(size, partSize);
    assert 0 * partSize == 0;
  }

  lemma AllStored(stored: map<nat, seq<Byte>>, parts: seq<CompletedPart>, n: nat)
    requires multiset(Numbers(parts)) == multiset(UpTo(n)) && forall i | 0 <= i < n :: UpTo(n)[i] in stored
    ensures forall p | p in parts :: p.number in stored
  {
    forall p | p in parts ensures p.number in stored {
      var i :| 0 <= i < |parts| && parts[i] == p;
      assert Numbers(parts)[i] in multiset(Numbers(parts));
      assert p.number in multiset(UpTo(n));
      var j :| 0 <= j < n && UpTo(n)[j] == p.number;
    }
  }
}
