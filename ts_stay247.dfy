/**
  * The persisted 24/7 map of the TypeScript port (src/music/stay247State.ts): a JSON object
  * from guild id to voice-channel id kept in one file. Every update reads the whole value,
  * changes one key and writes the whole value back.
  *
  * The guard in `readStay247State` only rejects values whose `typeof` is not "object", and a
  * JSON array passes it. Such a file is then used as it is: its entries are its indices, an
  * update with a key that is not an array index adds a property `JSON.stringify` does not
  * write, and the file keeps the array.
  */
module Stay247 {
  import opened Wrappers
  import opened Text

  /**
    * What the file holds, as far as reading it is concerned: nothing readable (missing file,
    * unreadable text or invalid JSON), a JSON value that is null or a primitive, an object, or
    * an array (`None` for an element that is `null`, as a hole is written back).
    */
  datatype Disk = Unreadable | NotObject | Object(entries: map<string, string>) | Array(items: seq<Option<string>>)

  /** No JavaScript array reaches 2^32 - 1 elements, so its indices lie below this bound. */
  const IndexLimit: nat := 0xFFFF_FFFF

  /**
    * A property name that is an array index: the decimal notation of a number below 2^32 - 1,
    * with no sign and no leading zero.
    */
  predicate IsArrayIndex(k: string) {
    AllDigits(k) && DigitsValue(k) < IndexLimit && NatToString(DigitsValue(k)) == k
  }

  /** The property name of index `i`. */
  function IndexKey(i: nat): (k: string)
    ensures AllDigits(k) && DigitsValue(k) == i
  {
    DigitsValueOfNatToString(i);
    NatToString(i)
  }

  /** `Object.entries` of an array: each index holding a string, keyed by its decimal name. */
  function ArrayEntries(items: seq<Option<string>>): map<string, string>
    decreases |items|
  {
    if items == [] then map[]
    else
      var n := |items| - 1;
      var rest := ArrayEntries(items[..n]);
      if n < IndexLimit && items[n].Some? then rest[IndexKey(n) := items[n].value] else rest
  }

  /** `readStay247State()`: the stored object or array, or `{}` whenever there is none to be had. */
  function Parsed(d: Disk): (m: map<string, string>)
    ensures d.Object? ==> m == d.entries
    ensures d.Array? ==> m == ArrayEntries(d.items)
    ensures d.Unreadable? || d.NotObject? ==> m == map[]
  {
    match d
    case Object(entries) => entries
    case Array(items) => ArrayEntries(items)
    case _ => map[]
  }

  /** A key is an entry of an array exactly when it names an index holding a string, and maps to that string. */
  lemma {:induction false} ArrayEntry(items: seq<Option<string>>, k: string)
    ensures k in ArrayEntries(items) <==> IsArrayIndex(k) && DigitsValue(k) < |items| && items[DigitsValue(k)].Some?
    ensures k in ArrayEntries(items) ==> ArrayEntries(items)[k] == items[DigitsValue(k)].value
    decreases |items|
  {
    if items != [] {
      var n := |items| - 1;
      var front := items[..n];
      ArrayEntry(front, k);
      if IsArrayIndex(k) && DigitsValue(k) == n {
        assert IndexKey(n) == k;
      }
    }
  }

  /** Whether a set of `g` on this file is written back: always, except a non-index key on an array. */
  predicate Persists(d: Disk, g: string) {
    !d.Array? || IsArrayIndex(g)
  }

  /** `arr[i] = c` on an array: past the end, the elements in between become holes. */
  function SetIndex(items: seq<Option<string>>, i: nat, c: string): seq<Option<string>> {
    if i < |items| then items[i := Some(c)]
    else items + seq(i - |items|, _ => None) + [Some(c)]
  }

  /** The file after `setStay247(g, c)`. */
  function AfterSet(d: Disk, g: string, c: string): Disk {
    match d
    case Array(items) => if IsArrayIndex(g) then Array(SetIndex(items, DigitsValue(g), c)) else d
    case _ => Object(Parsed(d)[g := c])
  }

  /** The file after `removeStay247(g)`. */
  function AfterRemove(d: Disk, g: string): Disk {
    match d
    case Array(items) =>
      if IsArrayIndex(g) && DigitsValue(g) < |items| then Array(items[DigitsValue(g) := None]) else d
    case _ => Object(Parsed(d) - {g})
  }

  /** One key of an array after `arr[i] = c`: index `i` holds `c`, every other key is as before. */
  lemma SetIndexEntry(items: seq<Option<string>>, i: nat, c: string, k: string)
    requires i < IndexLimit
    ensures var m' := ArrayEntries(SetIndex(items, i, c));
      && (k == IndexKey(i) ==> k in m' && m'[k] == c)
      && (k != IndexKey(i) ==> (k in m' <==> k in ArrayEntries(items)))
      && (k != IndexKey(i) && k in m' ==> m'[k] == ArrayEntries(items)[k])
  {
    var items' := SetIndex(items, i, c);
    ArrayEntry(items, k);
    ArrayEntry(items', k);
    if IsArrayIndex(k) && k != IndexKey(i) {
      var j := DigitsValue(k);
      if j < |items'| && j >= |items| {
        assert items'[j] == None;
      }
    }
  }

  /** One key of an array after `delete arr[i]`: index `i` is a hole, every other key is as before. */
  lemma RemoveIndexEntry(items: seq<Option<string>>, i: nat, k: string)
    requires i < |items| && i < IndexLimit
    ensures var m' := ArrayEntries(items[i := None]);
      && (k == IndexKey(i) ==> k !in m')
      && (k != IndexKey(i) ==> (k in m' <==> k in ArrayEntries(items)))
      && (k != IndexKey(i) && k in m' ==> m'[k] == ArrayEntries(items)[k])
  {
    ArrayEntry(items, k);
    ArrayEntry(items[i := None], k);
  }

  /**
    * After a set, `g` maps to `c` unless the file holds an array and `g` is not an index, in
    * which case the file is written back unchanged and `g` is not in it. Every other key keeps
    * the entry it had, or its absence.
    */
  lemma SetSpec(d: Disk, g: string, c: string)
    ensures var m := Parsed(AfterSet(d, g, c));
      && (Persists(d, g) ==> g in m && m[g] == c)
      && (!Persists(d, g) ==> AfterSet(d, g, c) == d && g !in m)
      && (forall k :: k != g ==> (k in m <==> k in Parsed(d)))
      && (forall k :: k != g && k in m ==> m[k] == Parsed(d)[k])
  {
    if d.Array? {
      ArrayEntry(d.items, g);
      if IsArrayIndex(g) {
        var i := DigitsValue(g);
        var m' := ArrayEntries(SetIndex(d.items, i, c));
        assert IndexKey(i) == g;
        SetIndexEntry(d.items, i, c, g);
        forall k | k != g
          ensures (k in m' <==> k in ArrayEntries(d.items)) && (k in m' ==> m'[k] == ArrayEntries(d.items)[k])
        {
          SetIndexEntry(d.items, i, c, k);
        }
      }
    }
  }

  /** After a remove, `g` is absent, and every other key keeps the entry it had, or its absence. */
  lemma RemoveSpec(d: Disk, g: string)
    ensures var m := Parsed(AfterRemove(d, g));
      && g !in m
      && (forall k :: k != g ==> (k in m <==> k in Parsed(d)))
      && (forall k :: k != g && k in m ==> m[k] == Parsed(d)[k])
  {
    if d.Array? {
      ArrayEntry(d.items, g);
      if IsArrayIndex(g) && DigitsValue(g) < |d.items| {
        var i := DigitsValue(g);
        var m' := ArrayEntries(d.items[i := None]);
        assert IndexKey(i) == g;
        RemoveIndexEntry(d.items, i, g);
        forall k | k != g
          ensures (k in m' <==> k in ArrayEntries(d.items)) && (k in m' ==> m'[k] == ArrayEntries(d.items)[k])
        {
          RemoveIndexEntry(d.items, i, k);
        }
      }
    }
  }

  /** Removing twice leaves the same file as removing once. */
  lemma RemoveIdempotent(d: Disk, g: string)
    ensures AfterRemove(AfterRemove(d, g), g) == AfterRemove(d, g)
  {
    if !d.Array? {
      assert Parsed(AfterRemove(d, g)) - {g} == Parsed(d) - {g};
    }
  }

  /**
    * A set followed by a remove of the same guild reads back as the remove alone; the files are
    * equal too unless the set grew an array, whose new holes the remove keeps.
    */
  lemma SetThenRemove(d: Disk, g: string, c: string)
    ensures Parsed(AfterRemove(AfterSet(d, g, c), g)) == Parsed(AfterRemove(d, g))
    ensures !d.Array? ==> AfterRemove(AfterSet(d, g, c), g) == AfterRemove(d, g)
    ensures g !in Parsed(AfterRemove(AfterSet(d, g, c), g))
  {
    if !d.Array? {
      assert Parsed(d)[g := c] - {g} == Parsed(d) - {g};
    } else {
      SetSpec(d, g, c);
      RemoveSpec(AfterSet(d, g, c), g);
      RemoveSpec(d, g);
      SameOffKey(Parsed(AfterRemove(AfterSet(d, g, c), g)), Parsed(AfterRemove(d, g)), g);
    }
  }

  /** Two maps without `g` that agree on every other key are equal. */
  lemma SameOffKey(a: map<string, string>, b: map<string, string>, g: string)
    requires g !in a && g !in b
    requires forall k :: k != g ==> (k in a <==> k in b)
    requires forall k :: k != g && k in a ==> a[k] == b[k]
    ensures a == b
  {
  }

  /**
    * An update of a file without an array writes a whole object: a file that could not be read
    * is replaced, so its previous content is lost and only the updated key remains. A file
    * holding an array keeps an array, and an update with a key that is not an index leaves it
    * as it was.
    */
  lemma UpdateRewritesFile(d: Disk, g: string, c: string)
    ensures !d.Array? ==> AfterSet(d, g, c).Object? && AfterRemove(d, g).Object?
    ensures d.Unreadable? || d.NotObject? ==> AfterSet(d, g, c) == Object(map[g := c]) && AfterRemove(d, g) == Object(map[])
    ensures d.Array? ==> AfterSet(d, g, c).Array? && AfterRemove(d, g).Array?
    ensures d.Array? && !IsArrayIndex(g) ==> AfterSet(d, g, c) == d && AfterRemove(d, g) == d
  {
  }

  /** The decimal notation of a number below 10^n has at most n digits. */
  lemma {:induction false} ShortNotation(v: nat, bound: nat, n: nat)
    requires v < bound && bound == Pow10(n) && n >= 1
    ensures |NatToString(v)| <= n
    decreases n
  {
    if v >= 10 {
      assert n != 1 by {
        assert Pow10(1) == 10;
      }
      assert v / 10 < Pow10(n - 1);
      ShortNotation(v / 10, Pow10(n - 1), n - 1);
    }
  }

  function Pow10(n: nat): (p: nat)
    ensures p >= 1
  {
    if n == 0 then 1 else 10 * Pow10(n - 1)
  }

  /**
    * A guild id has more than ten digits (Discord ids have seventeen or more), so on a file
    * holding an array it is never an index: enabling 24/7 there saves nothing, and the file is
    * written back as it was.
    */
  lemma GuildIdOnArrayNotSaved(items: seq<Option<string>>, g: string, c: string)
    requires |g| > 10
    ensures !IsArrayIndex(g)
    ensures AfterSet(Array(items), g, c) == Array(items) && g !in Parsed(AfterSet(Array(items), g, c))
    ensures AfterRemove(Array(items), g) == Array(items)
  {
    ArrayEntry(items, g);
    if IsArrayIndex(g) {
      assert Pow10(10) == 10000000000;
      ShortNotation(DigitsValue(g), Pow10(10), 10);
    }
  }

  /** The file `["x"]` reads as the single entry "0" -> "x". */
  lemma ArrayReadsAsIndices()
    ensures Parsed(Array([Some("x")])) == map["0" := "x"]
  {
    var m := Parsed(Array([Some("x")]));
    assert NatToString(0) == "0";
    ArrayEntry([Some("x")], "0");
    forall k | k in m ensures k == "0" {
      ArrayEntry([Some("x")], k);
      assert NatToString(0) == k;
    }
  }

  /** The file the port keeps its 24/7 guilds in. */
  class Store {
    var disk: Disk

    constructor (disk: Disk)
      ensures this.disk == disk
    {
      this.disk := disk;
    }

    /** `readStay247State()`: reading never fails and never changes the file. */
    method Read() returns (m: map<string, string>)
      ensures m == Parsed(disk)
      ensures disk.Unreadable? || disk.NotObject? ==> m == map[]
    {
      match disk {
        case Object(entries) =>
          m := entries;
        case Array(items) =>
          m := ArrayEntries(items);
        case _ =>
          m := map[];
      }
    }

    /** `setStay247(g, c)`: read the value, set one property, write the value back. */
    method Set(g: string, c: string)
      modifies this
      ensures disk == AfterSet(old(disk), g, c)
    {
      if disk.Array? {
        // A property that is not an array index is not part of what `JSON.stringify` writes.
        if IsArrayIndex(g) {
          disk := Array(SetIndex(disk.items, DigitsValue(g), c));
        }
      } else {
        var state := Read();
        state := state[g := c];
        disk := Object(state);
      }
    }

    /** `removeStay247(g)`: read the value, delete one property, write the value back. */
    method Remove(g: string)
      modifies this
      ensures disk == AfterRemove(old(disk), g)
    {
      if disk.Array? {
        // Deleting an element leaves a hole, written as `null`; deleting anything else does nothing.
        if IsArrayIndex(g) && DigitsValue(g) < |disk.items| {
          disk := Array(disk.items[DigitsValue(g) := None]);
        }
      } else {
        var state := Read();
        state := state - {g};
        disk := Object(state);
      }
    }
  }
}
