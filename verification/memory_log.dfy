/**
 The server's note list (index.js:49-68): a module-level array of trimmed
 notes, capped at `MaxMemories` by dropping the oldest, that never holds the
 same note twice in a row, and whose newest entries are quoted to the model
 as a bulleted block.
 */
module MemoryLog {
  import opened JsString
  import opened JsValue

  /** Capacity of the note list. */
  const MaxMemories: nat := 30

  /** How many notes the chat prompt quotes. */
  const PromptNotes: int := 6

  /**
   What the list always satisfies: within capacity, every note trimmed and
   not empty, and no note equal to the one before it.
   */
  ghost predicate Valid(mem: seq<string>) {
    && |mem| <= MaxMemories
    && (forall i :: 0 <= i < |mem| ==> mem[i] != "" && Trimmed(mem[i]))
    && (forall i :: 0 < i < |mem| ==> mem[i - 1] != mem[i])
  }

  /**
   `addMemory` takes the value: a string that is not blank, whose trimmed
   form is not already the newest note.
   */
  predicate Admits(mem: seq<string>, text: Value) {
    && text.Str?
    && !Blank(text.s)
    && (|mem| == 0 || mem[|mem| - 1] != Trim(text.s))
  }

  /** `addMemory(text)` applied to the list `mem`. */
  function AddMemory(mem: seq<string>, text: Value): (r: seq<string>)
    ensures r == mem <==> !Admits(mem, text)
    ensures Admits(mem, text) ==>
      && |r| == (if |mem| < MaxMemories then |mem| + 1 else |mem|)
      && r[|r| - 1] == Trim(text.s)
      && r[..|r| - 1] == mem[|mem| + 1 - |r|..]
  {
    match text
    case Str(s) =>
      var t := Trim(s);
      if s == "" || t == "" then mem
      else if |mem| > 0 && mem[|mem| - 1] == t then mem
      else Push(mem, t)
    case _ => mem
  }

  /** `MEMORIES.push(t)`, then `shift()` when the list has grown past capacity. */
  function Push(mem: seq<string>, t: string): (r: seq<string>)
    requires |mem| == 0 || mem[|mem| - 1] != t
    ensures |r| == (if |mem| < MaxMemories then |mem| + 1 else |mem|)
    ensures r[|r| - 1] == t && r[..|r| - 1] == mem[|mem| + 1 - |r|..]
    ensures r != mem
  {
    var pushed := mem + [t];
    if |pushed| > MaxMemories then
      assert pushed[1..][|mem| - 1] == t;
      pushed[1..]
    else pushed
  }

  /** Adding a note keeps the list valid: capacity, trimmed notes, no adjacent repeats. */
  lemma AddMemoryKeepsValid(mem: seq<string>, text: Value)
    requires Valid(mem)
    ensures Valid(AddMemory(mem, text))
  {
    var r := AddMemory(mem, text);
    if Admits(mem, text) {
      var k := |mem| + 1 - |r|;
      var pre := r[..|r| - 1];
      assert r == pre + [Trim(text.s)];
      ValidSuffix(mem, k);
      ValidSnoc(pre, Trim(text.s));
    }
  }

  lemma ValidSuffix(mem: seq<string>, k: nat)
    requires Valid(mem) && k <= |mem|
    ensures Valid(mem[k..])
  {
    var suf := mem[k..];
    assert forall i :: 0 <= i < |suf| ==> suf[i] == mem[k + i];
  }

  lemma ValidSnoc(pre: seq<string>, t: string)
    requires Valid(pre) && |pre| < MaxMemories
    requires t != "" && Trimmed(t)
    requires |pre| == 0 || pre[|pre| - 1] != t
    ensures Valid(pre + [t])
  {
    var r := pre + [t];
    assert forall i :: 0 <= i < |pre| ==> r[i] == pre[i];
    assert r[|pre|] == t;
  }

  /** When the list is full, an admitted note evicts exactly the oldest one. */
  lemma FullListEvictsOldest(mem: seq<string>, text: Value)
    requires |mem| == MaxMemories && Admits(mem, text)
    ensures AddMemory(mem, text) == mem[1..] + [Trim(text.s)]
  {
    var r := AddMemory(mem, text);
    assert r == r[..|r| - 1] + [r[|r| - 1]];
  }

  /** JavaScript `s.slice(start)` with a single, possibly negative, argument. */
  function SliceFrom<T>(s: seq<T>, start: int): (r: seq<T>)
    ensures |r| <= |s| && r == s[|s| - |r|..]
    ensures start < 0 ==> |r| == (if -start < |s| then -start else |s|)
    ensures start >= 0 ==> |r| == (if start < |s| then |s| - start else 0)
  {
    var from := if start < 0 then (if |s| + start < 0 then 0 else |s| + start)
                else (if start > |s| then |s| else start);
    s[from..]
  }

  function Bullet(m: string): string {
    "- " + m
  }

  function Bullets(ms: seq<string>): (r: seq<string>)
    ensures |r| == |ms| && forall i :: 0 <= i < |ms| ==> r[i] == Bullet(ms[i])
  {
    seq(|ms|, i requires 0 <= i < |ms| => Bullet(ms[i]))
  }

  /** `getMemoryContext(n)`: the notes `slice(-n)` picks, one bulleted line each. */
  function MemoryContext(mem: seq<string>, n: int): (r: string)
    ensures |mem| == 0 ==> r == ""
  {
    if |mem| == 0 then "" else Join(Bullets(SliceFrom(mem, -n)), "\n")
  }

  /**
   Reference reading of a bulleted block, built line by line from the
   oldest note: each further note adds a newline and its bullet.
   */
  function Listing(ms: seq<string>): string
    decreases |ms|
  {
    if |ms| == 0 then ""
    else if |ms| == 1 then Bullet(ms[0])
    else Listing(ms[..|ms| - 1]) + "\n" + Bullet(ms[|ms| - 1])
  }

  /** The block of bullets is the line-by-line listing of the same notes. */
  lemma {:induction false} JoinedBulletsAreListing(ms: seq<string>)
    ensures Join(Bullets(ms), "\n") == Listing(ms)
    decreases |ms|
  {
    if |ms| > 1 {
      var init := ms[..|ms| - 1];
      JoinedBulletsAreListing(init);
      assert Bullets(ms) == Bullets(init) + [Bullet(ms[|ms| - 1])];
      JoinSnoc(Bullets(init), Bullet(ms[|ms| - 1]), "\n");
    }
  }

  /**
   For `n >= 1` the context lists the newest `min(n, |mem|)` notes, oldest
   first; for `n <= 0` it follows `slice(-n)`, so `n == 0` lists every note.
   */
  lemma ContextListsNewest(mem: seq<string>, n: int)
    requires |mem| > 0
    ensures n >= 1 ==>
              MemoryContext(mem, n) == Listing(mem[|mem| - (if n < |mem| then n else |mem|)..])
    ensures n == 0 ==> MemoryContext(mem, n) == Listing(mem)
    ensures MemoryContext(mem, 0) == MemoryContext(mem, |mem|)
  {
    JoinedBulletsAreListing(SliceFrom(mem, -n));
    assert SliceFrom(mem, 0) == mem == SliceFrom(mem, -|mem|);
  }

  /** With at least one note and `n >= 1` the context is not empty and ends with the newest note's bullet. */
  lemma ContextEndsWithNewest(mem: seq<string>, n: int)
    requires |mem| > 0 && n >= 1
    ensures MemoryContext(mem, n) != ""
    ensures EndsWith(MemoryContext(mem, n), Bullet(mem[|mem| - 1]))
  {
    var picked := SliceFrom(mem, -n);
    JoinEndsWithLast(Bullets(picked), "\n");
    assert picked[|picked| - 1] == mem[|mem| - 1];
  }

  /** Reading more notes than there are lists them all. */
  lemma ContextSaturates(mem: seq<string>, n: int)
    requires n >= |mem|
    ensures MemoryContext(mem, n) == MemoryContext(mem, |mem|)
  {
    assert SliceFrom(mem, -n) == mem;
    assert SliceFrom(mem, -|mem|) == mem;
  }
}
