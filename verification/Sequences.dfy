/** Lists shared by the pipelines: `chunks` of src/lib/utilities.py, and joining and
    splitting of text. */
module Sequences {

  function Flatten<T>(parts: seq<seq<T>>): seq<T> {
    if parts == [] then [] else parts[0] + Flatten(parts[1..])
  }

  lemma {:induction false} FlattenAppend<T>(a: seq<seq<T>>, b: seq<seq<T>>)
    ensures Flatten(a + b) == Flatten(a) + Flatten(b)
  {
    if a == [] {
      assert a + b == b;
    } else {
      assert (a + b)[0] == a[0] && (a + b)[1..] == a[1..] + b;
      FlattenAppend(a[1..], b);
    }
  }

  lemma FlattenSnoc<T>(a: seq<seq<T>>, last: seq<T>)
    ensures Flatten(a + [last]) == Flatten(a) + last
  {
    FlattenAppend(a, [last]);
    assert Flatten([last]) == last + Flatten<T>([]) == last;
  }

  lemma {:induction false} InFlatten<T>(parts: seq<seq<T>>, i: nat, element: T)
    requires i < |parts| && element in parts[i]
    ensures element in Flatten(parts)
  {
    if i > 0 {
      assert parts[1..][i - 1] == parts[i];
      InFlatten(parts[1..], i - 1, element);
    }
  }

  lemma ConcatIsAssociative<T>(a: seq<T>, b: seq<T>, c: seq<T>)
    ensures (a + b) + c == a + (b + c)
  {
  }

  lemma ConcatEmpty<T>(a: seq<T>)
    ensures a + [] == a
    ensures [] + a == a
  {
  }

  /** An update of a list, seen from its prefix without the last element. */
  lemma UpdateInPrefix<T>(list: seq<T>, i: nat, element: T)
    requires i < |list|
    ensures var last := |list| - 1;
            list[i := element][..last] == if i == last then list[..last] else list[..last][i := element]
  {
  }

  lemma PrefixOfPrefix<T>(list: seq<T>, k: nat, n: nat)
    requires k <= n <= |list|
    ensures list[..n][..k] == list[..k]
  {
  }

  lemma PrefixOfConcat<T>(a: seq<T>, b: seq<T>, k: nat)
    requires k <= |a|
    ensures (a + b)[..k] == a[..k]
  {
  }

  /** One more element of a list. */
  lemma TakeOneMore<T>(list: seq<T>, i: nat)
    requires i < |list|
    ensures list[..i + 1] == list[..i] + [list[i]] && list[..i + 1][..i] == list[..i]
  {
  }

  lemma TakeAll<T>(list: seq<T>)
    ensures list[..|list|] == list && list[..0] == [] && list[0..] == list && list[|list|..] == []
  {
  }

  lemma DropLast<T>(a: seq<T>, last: T)
    ensures (a + [last])[..|a|] == a
  {
  }

  lemma SliceAcross<T>(first: seq<T>, skip: nat, element: T, rest: seq<T>)
    requires skip <= |first|
    ensures (first + [element])[skip..] + rest == first[skip..] + ([element] + rest)
  {
  }

  lemma SplitAt<T>(list: seq<T>, i: nat)
    requires i <= |list|
    ensures list == list[..i] + list[i..]
    ensures i == |list| ==> list[..i] == list
  {
  }

  /** The list without the element at `i`. */
  function Without<T>(list: seq<T>, i: nat): seq<T>
    requires i < |list|
  {
    list[..i] + list[i + 1..]
  }

  lemma SplitAround<T>(list: seq<T>, i: nat)
    requires i < |list|
    ensures list == (list[..i] + [list[i]]) + list[i + 1..]
  {
  }

  /** `chunks(full_list, chunk_size)`: slices of `max(1, chunk_size)` elements. */
  function Chunks<T>(list: seq<T>, chunkSize: int): seq<seq<T>> {
    ChunksOf(list, if chunkSize < 1 then 1 else chunkSize)
  }

  function ChunksOf<T>(list: seq<T>, size: nat): seq<seq<T>>
    requires size >= 1
  {
    if list == [] then []
    else if |list| <= size then [list]
    else [list[..size]] + ChunksOf(list[size..], size)
  }

  /** The chunks put back together are the list. */
  lemma {:induction false} ChunksRejoin<T>(list: seq<T>, chunkSize: int)
    ensures Flatten(Chunks(list, chunkSize)) == list
    decreases |list|
  {
    var size := if chunkSize < 1 then 1 else chunkSize;
    if |list| > size {
      ChunksRejoin(list[size..], chunkSize);
      assert Chunks(list, chunkSize) == [list[..size]] + Chunks(list[size..], chunkSize);
      assert list == list[..size] + list[size..];
    } else if list != [] {
      assert Chunks(list, chunkSize) == [list];
      assert Flatten([list]) == list + Flatten<T>([]) == list;
    }
  }

  /** No chunk is empty, none is larger than the chunk size, and all but the last have
      exactly that size. */
  lemma {:induction false} ChunkSizes<T>(list: seq<T>, chunkSize: int)
    ensures forall i :: 0 <= i < |Chunks(list, chunkSize)| ==>
              1 <= |Chunks(list, chunkSize)[i]| <= (if chunkSize < 1 then 1 else chunkSize)
    ensures forall i :: 0 <= i < |Chunks(list, chunkSize)| - 1 ==>
              |Chunks(list, chunkSize)[i]| == (if chunkSize < 1 then 1 else chunkSize)
    decreases |list|
  {
    var size := if chunkSize < 1 then 1 else chunkSize;
    if |list| > size {
      ChunkSizes(list[size..], chunkSize);
      assert Chunks(list, chunkSize) == [list[..size]] + Chunks(list[size..], chunkSize);
    } else if list != [] {
      assert Chunks(list, chunkSize) == [list];
    }
  }

  lemma {:induction false} ChunksAreFew<T>(list: seq<T>, chunkSize: int)
    ensures |Chunks(list, chunkSize)| <= |list|
    decreases |list|
  {
    var size := if chunkSize < 1 then 1 else chunkSize;
    if |list| > size { ChunksAreFew(list[size..], chunkSize); }
  }

  lemma FlattenLength<T>(parts: seq<seq<T>>, i: nat)
    requires i < |parts|
    ensures |Flatten(parts)| == |Flatten(Without(parts, i))| + |parts[i]|
  {
    SplitAround(parts, i);
    FlattenAppend(parts[..i] + [parts[i]], parts[i + 1..]);
    FlattenSnoc(parts[..i], parts[i]);
    FlattenAppend(parts[..i], parts[i + 1..]);
  }

  function Sum(counts: seq<nat>): nat {
    if counts == [] then 0 else Sum(counts[..|counts| - 1]) + counts[|counts| - 1]
  }

  lemma {:induction false} SumUpdate(counts: seq<nat>, i: nat, count: nat)
    requires i < |counts|
    ensures Sum(counts[i := count]) + counts[i] == Sum(counts) + count
    decreases |counts|
  {
    UpdateInPrefix(counts, i, count);
    if i < |counts| - 1 { SumUpdate(counts[..|counts| - 1], i, count); }
  }

  lemma {:induction false} SumOfZeros(counts: seq<nat>)
    requires forall i :: 0 <= i < |counts| ==> counts[i] == 0
    ensures Sum(counts) == 0
  {
    if counts != [] { SumOfZeros(counts[..|counts| - 1]); }
  }

  /** `separator.join(parts)` for a one-character separator. */
  function Join(parts: seq<string>, separator: char): string {
    if parts == [] then ""
    else if |parts| == 1 then parts[0]
    else parts[0] + [separator] + Join(parts[1..], separator)
  }

  /** `text.split(separator)`. */
  function Split(text: string, separator: char): (parts: seq<string>)
    ensures |parts| >= 1
  {
    if text == "" then [""]
    else
      var rest := Split(text[1..], separator);
      if text[0] == separator then [""] + rest
      else [[text[0]] + rest[0]] + rest[1..]
  }

  lemma {:induction false} SplitFirst(part: string, rest: string, separator: char)
    requires separator !in part
    ensures Split(part, separator) == [part]
    ensures Split(part + [separator] + rest, separator) == [part] + Split(rest, separator)
  {
    if part == "" {
      assert part + [separator] + rest == [separator] + rest;
      assert ([separator] + rest)[1..] == rest;
    } else {
      SplitFirst(part[1..], rest, separator);
      assert (part + [separator] + rest)[1..] == part[1..] + [separator] + rest;
      assert part == [part[0]] + part[1..];
    }
  }

  /** Splitting undoes joining when no part holds the separator. */
  lemma {:induction false} SplitUndoesJoin(parts: seq<string>, separator: char)
    requires parts != []
    requires forall i :: 0 <= i < |parts| ==> separator !in parts[i]
    ensures Split(Join(parts, separator), separator) == parts
  {
    if |parts| == 1 {
      SplitFirst(parts[0], "", separator);
    } else {
      SplitUndoesJoin(parts[1..], separator);
      SplitFirst(parts[0], Join(parts[1..], separator), separator);
    }
  }
}
