/** The values a caller may put in an action's parameter bag, what they mean as
    JSON, and the recursive key sort that runs before they are hashed. */
module JsonValues {

  /** A Python value as the digest layer sees it. `PyFloat` and `PyOther` stand
      for everything validation refuses. A dictionary is its items in insertion
      order. */
  datatype PyValue =
    | PyNone
    | PyBool(b: bool)
    | PyInt(n: int)
    | PyStr(s: string)
    | PyList(items: seq<PyValue>)
    | PyDict(entries: seq<Entry>)
    | PyFloat
    | PyOther

  datatype Entry = Entry(key: string, value: PyValue)

  /** A JSON value in which objects carry no order. */
  datatype Json =
    | JNull
    | JBool(b: bool)
    | JInt(n: int)
    | JStr(s: string)
    | JArr(items: seq<Json>)
    | JObj(fields: map<string, Json>)
    | JFloat
    | JOther

  ghost predicate UniqueKeys(entries: seq<Entry>) {
    forall i, j :: 0 <= i < j < |entries| ==> entries[i].key != entries[j].key
  }

  /** What every Python dictionary guarantees, at every depth. */
  ghost predicate WellFormed(v: PyValue) {
    match v
    case PyList(items) => forall i :: 0 <= i < |items| ==> WellFormed(items[i])
    case PyDict(entries) =>
      && UniqueKeys(entries)
      && forall i :: 0 <= i < |entries| ==> WellFormed(entries[i].value)
    case _ => true
  }

  ghost function Meaning(v: PyValue): Json
    decreases v, 1
  {
    match v
    case PyNone => JNull
    case PyBool(b) => JBool(b)
    case PyInt(n) => JInt(n)
    case PyStr(s) => JStr(s)
    case PyList(items) => JArr(seq(|items|, i requires 0 <= i < |items| => Meaning(items[i])))
    case PyDict(entries) => JObj(Fields(entries))
    case PyFloat => JFloat
    case PyOther => JOther
  }

  ghost function Fields(entries: seq<Entry>): map<string, Json>
    decreases entries, 0
  {
    if entries == [] then map[]
    else Fields(entries[1..])[entries[0].key := Meaning(entries[0].value)]
  }

  lemma {:induction false} FieldAt(entries: seq<Entry>, i: nat)
    requires UniqueKeys(entries) && i < |entries|
    ensures entries[i].key in Fields(entries)
    ensures Fields(entries)[entries[i].key] == Meaning(entries[i].value)
  {
    if i > 0 {
      FieldAt(entries[1..], i - 1);
    }
  }

  lemma {:induction false} FieldFrom(entries: seq<Entry>, k: string) returns (i: nat)
    requires k in Fields(entries)
    ensures i < |entries| && entries[i].key == k
  {
    if entries[0].key == k {
      i := 0;
    } else {
      i := FieldFrom(entries[1..], k);
      i := i + 1;
    }
  }

  lemma {:induction false} PointwiseFields(a: seq<Entry>, b: seq<Entry>)
    requires |a| == |b|
    requires forall i :: 0 <= i < |a| ==> a[i].key == b[i].key && Meaning(a[i].value) == Meaning(b[i].value)
    ensures Fields(a) == Fields(b)
  {
    if a != [] {
      PointwiseFields(a[1..], b[1..]);
    }
  }

  /** Dictionaries with one meaning agree on a shared key. */
  lemma FieldsAgree(a: seq<Entry>, b: seq<Entry>, i: nat, j: nat)
    requires UniqueKeys(a) && UniqueKeys(b) && Fields(a) == Fields(b)
    requires i < |a| && j < |b| && a[i].key == b[j].key
    ensures Meaning(a[i].value) == Meaning(b[j].value)
  {
    FieldAt(a, i);
    FieldAt(b, j);
  }

  // ---------------------------------------------------------------- ordering

  /** Python's order on strings: by code point, a prefix first. */
  predicate Before(a: string, b: string) {
    if b == "" then false
    else if a == "" then true
    else if a[0] != b[0] then a[0] < b[0]
    else Before(a[1..], b[1..])
  }

  lemma {:induction false} BeforeTotal(a: string, b: string)
    ensures a == b || Before(a, b) || Before(b, a)
    ensures !(Before(a, b) && Before(b, a))
    ensures !Before(a, a)
  {
    if a != "" {
      BeforeTotal(a[1..], if b == "" then "" else b[1..]);
      if b != "" {
        BeforeTotal(a[1..], b[1..]);
        assert a == [a[0]] + a[1..] && b == [b[0]] + b[1..];
      }
    }
  }

  lemma {:induction false} BeforeTransitive(a: string, b: string, c: string)
    requires Before(a, b) && Before(b, c)
    ensures Before(a, c)
  {
    if a != "" && a[0] == b[0] == c[0] {
      BeforeTransitive(a[1..], b[1..], c[1..]);
    }
  }

  ghost predicate Sorted(entries: seq<Entry>) {
    forall i, j :: 0 <= i < j < |entries| ==> Before(entries[i].key, entries[j].key)
  }

  // ------------------------------------------------------ the recursive sort

  function InsertByKey(e: Entry, sorted: seq<Entry>): (r: seq<Entry>)
    ensures |r| == |sorted| + 1
  {
    if sorted == [] || !Before(sorted[0].key, e.key) then [e] + sorted
    else [sorted[0]] + InsertByKey(e, sorted[1..])
  }

  function SortByKey(entries: seq<Entry>): (r: seq<Entry>)
    ensures |r| == |entries|
  {
    if entries == [] then [] else InsertByKey(entries[0], SortByKey(entries[1..]))
  }

  /** `_canonicalize_json`. */
  function Canonicalize(v: PyValue): PyValue {
    match v
    case PyList(items) => PyList(seq(|items|, i requires 0 <= i < |items| => Canonicalize(items[i])))
    case PyDict(entries) =>
      PyDict(SortByKey(seq(|entries|, i requires 0 <= i < |entries| =>
        Entry(entries[i].key, Canonicalize(entries[i].value)))))
    case _ => v
  }

  /** The entries of a dictionary as a finite map. */
  ghost function EntryMap(entries: seq<Entry>): map<string, PyValue>
    requires UniqueKeys(entries)
  {
    map i | 0 <= i < |entries| :: entries[i].key := entries[i].value
  }

  lemma {:induction false} InsertKeeps(e: Entry, sorted: seq<Entry>)
    requires Sorted(sorted)
    requires forall i :: 0 <= i < |sorted| ==> sorted[i].key != e.key
    ensures Sorted(InsertByKey(e, sorted))
    ensures forall x :: x in InsertByKey(e, sorted) <==> x == e || x in sorted
  {
    if sorted == [] {
    } else if !Before(sorted[0].key, e.key) {
      BeforeTotal(sorted[0].key, e.key);
      forall i | 0 <= i < |sorted| ensures Before(e.key, sorted[i].key) {
        if i > 0 { BeforeTransitive(e.key, sorted[0].key, sorted[i].key); }
      }
    } else {
      var rest := InsertByKey(e, sorted[1..]);
      InsertKeeps(e, sorted[1..]);
      forall i | 0 <= i < |rest| ensures Before(sorted[0].key, rest[i].key) {
        assert rest[i] in rest;
      }
      forall x ensures x in InsertByKey(e, sorted) <==> x == e || x in sorted {
        assert sorted == [sorted[0]] + sorted[1..];
      }
    }
  }

  lemma {:induction false} SortKeeps(entries: seq<Entry>)
    requires UniqueKeys(entries)
    ensures Sorted(SortByKey(entries))
    ensures forall x :: x in SortByKey(entries) <==> x in entries
  {
    if entries != [] {
      SortKeeps(entries[1..]);
      forall i | 0 <= i < |SortByKey(entries[1..])|
        ensures SortByKey(entries[1..])[i].key != entries[0].key
      {
        assert SortByKey(entries[1..])[i] in entries[1..];
      }
      InsertKeeps(entries[0], SortByKey(entries[1..]));
      assert entries == [entries[0]] + entries[1..];
    }
  }

  lemma SortedIsUnique(entries: seq<Entry>)
    requires Sorted(entries)
    ensures UniqueKeys(entries)
  {
    forall i, j | 0 <= i < j < |entries| ensures entries[i].key != entries[j].key {
      BeforeTotal(entries[i].key, entries[j].key);
    }
  }

  lemma MappedEntry(entries: seq<Entry>, e: Entry)
    requires UniqueKeys(entries) && e in entries
    ensures e.key in EntryMap(entries) && EntryMap(entries)[e.key] == e.value
  {
    var i :| 0 <= i < |entries| && entries[i] == e;
    assert entries[i].key in EntryMap(entries);
  }

  lemma SameEntriesSameMap(a: seq<Entry>, b: seq<Entry>)
    requires UniqueKeys(a) && UniqueKeys(b)
    requires forall x :: x in a <==> x in b
    ensures EntryMap(a) == EntryMap(b)
  {
    forall k | k in EntryMap(a) ensures k in EntryMap(b) && EntryMap(a)[k] == EntryMap(b)[k] {
      var i :| 0 <= i < |a| && a[i].key == k;
      MappedEntry(a, a[i]);
      MappedEntry(b, a[i]);
    }
    forall k | k in EntryMap(b) ensures k in EntryMap(a) {
      var i :| 0 <= i < |b| && b[i].key == k;
      MappedEntry(a, b[i]);
    }
  }

  /** Sorting does not change what a dictionary maps to what. */
  lemma SortKeepsMap(entries: seq<Entry>)
    requires UniqueKeys(entries)
    ensures Sorted(SortByKey(entries)) && UniqueKeys(SortByKey(entries))
    ensures EntryMap(SortByKey(entries)) == EntryMap(entries)
  {
    SortKeeps(entries);
    SortedIsUnique(SortByKey(entries));
    SameEntriesSameMap(SortByKey(entries), entries);
  }

  lemma EntryMapTail(entries: seq<Entry>)
    requires entries != [] && UniqueKeys(entries)
    ensures UniqueKeys(entries[1..])
    ensures EntryMap(entries[1..]) == EntryMap(entries) - {entries[0].key}
  {
    forall k | k in EntryMap(entries) - {entries[0].key} ensures k in EntryMap(entries[1..]) {
      var i :| 0 <= i < |entries| && entries[i].key == k;
      assert entries[1..][i - 1] == entries[i];
    }
  }

  lemma SameFirstEntry(a: seq<Entry>, b: seq<Entry>)
    requires Sorted(a) && Sorted(b) && UniqueKeys(a) && UniqueKeys(b)
    requires EntryMap(a) == EntryMap(b) && a != []
    ensures b != [] && a[0] == b[0]
  {
    assert a[0].key in EntryMap(b);
    var j :| 0 <= j < |b| && b[j].key == a[0].key;
    assert b[0].key in EntryMap(a);
    var i :| 0 <= i < |a| && a[i].key == b[0].key;
    BeforeTotal(a[0].key, b[0].key);
    assert EntryMap(a)[a[0].key] == a[0].value && EntryMap(b)[b[0].key] == b[0].value;
  }

  /** A sorted dictionary is determined by what it maps to what. */
  lemma {:induction false} SortedDetermined(a: seq<Entry>, b: seq<Entry>)
    requires Sorted(a) && Sorted(b) && UniqueKeys(a) && UniqueKeys(b)
    requires EntryMap(a) == EntryMap(b)
    ensures a == b
  {
    if a != [] {
      SameFirstEntry(a, b);
      EntryMapTail(a);
      EntryMapTail(b);
      SortedDetermined(a[1..], b[1..]);
    } else if b != [] {
      SameFirstEntry(b, a);
    }
  }

  // -------------------------------------------------------------- the theorem

  ghost function CanonicalEntries(entries: seq<Entry>): (r: seq<Entry>)
    ensures |r| == |entries|
    ensures forall i :: 0 <= i < |r| ==> r[i] == Entry(entries[i].key, Canonicalize(entries[i].value))
  {
    seq(|entries|, i requires 0 <= i < |entries| => Entry(entries[i].key, Canonicalize(entries[i].value)))
  }

  lemma CanonicalDict(entries: seq<Entry>)
    ensures Canonicalize(PyDict(entries)) == PyDict(SortByKey(CanonicalEntries(entries)))
  {
    assert seq(|entries|, i requires 0 <= i < |entries| => Entry(entries[i].key, Canonicalize(entries[i].value)))
        == CanonicalEntries(entries);
  }

  /** The key sort keeps the meaning, at every depth. */
  lemma {:induction false} CanonicalizeKeepsMeaning(v: PyValue)
    requires WellFormed(v)
    ensures WellFormed(Canonicalize(v))
    ensures Meaning(Canonicalize(v)) == Meaning(v)
  {
    match v {
      case PyList(items) =>
        forall i | 0 <= i < |items|
          ensures WellFormed(Canonicalize(items[i])) && Meaning(Canonicalize(items[i])) == Meaning(items[i])
        {
          CanonicalizeKeepsMeaning(items[i]);
        }
      case PyDict(entries) =>
        forall i | 0 <= i < |entries|
          ensures WellFormed(Canonicalize(entries[i].value))
          ensures Meaning(Canonicalize(entries[i].value)) == Meaning(entries[i].value)
        {
          CanonicalizeKeepsMeaning(entries[i].value);
        }
        SortedDictMeaning(entries);
      case _ =>
    }
  }

  lemma SortedDictMeaning(entries: seq<Entry>)
    requires WellFormed(PyDict(entries))
    requires forall i :: 0 <= i < |entries| ==>
               && WellFormed(Canonicalize(entries[i].value))
               && Meaning(Canonicalize(entries[i].value)) == Meaning(entries[i].value)
    ensures WellFormed(Canonicalize(PyDict(entries)))
    ensures Meaning(Canonicalize(PyDict(entries))) == Meaning(PyDict(entries))
  {
    var mid := CanonicalEntries(entries);
    var sorted := SortByKey(mid);
    CanonicalDict(entries);
    SortKeeps(mid);
    SortedIsUnique(sorted);
    forall i | 0 <= i < |sorted|
      ensures exists j :: 0 <= j < |entries| && sorted[i] == mid[j] && sorted[i].key == entries[j].key
      ensures WellFormed(sorted[i].value)
    {
      assert sorted[i] in mid;
    }
    var before, after := Fields(entries), Fields(sorted);
    forall k | k in before ensures k in after && after[k] == before[k] {
      var j := FieldFrom(entries, k);
      assert mid[j] in sorted;
      var i :| 0 <= i < |sorted| && sorted[i] == mid[j];
      FieldAt(entries, j);
      FieldAt(sorted, i);
    }
    forall k | k in after ensures k in before {
      var i := FieldFrom(sorted, k);
      assert sorted[i] in mid;
      var j :| 0 <= j < |mid| && mid[j] == sorted[i];
      FieldAt(entries, j);
    }
    assert before == after;
  }

  /** Two values with one meaning have one canonical form, whatever the
      insertion order of their keys, at every depth. */
  lemma {:induction false} SameMeaningSameForm(a: PyValue, b: PyValue)
    requires WellFormed(a) && WellFormed(b) && Meaning(a) == Meaning(b)
    ensures Canonicalize(a) == Canonicalize(b)
  {
    match a {
      case PyList(items) =>
        assert b.PyList?;
        var ma, mb := Meaning(a).items, Meaning(b).items;
        assert |items| == |ma| == |mb| == |b.items|;
        forall i | 0 <= i < |items| ensures Canonicalize(items[i]) == Canonicalize(b.items[i]) {
          assert ma[i] == Meaning(items[i]) && mb[i] == Meaning(b.items[i]);
          SameMeaningSameForm(items[i], b.items[i]);
        }
        assert Canonicalize(a).items == Canonicalize(b).items;
      case PyDict(entries) =>
        assert b.PyDict?;
        forall i, j | 0 <= i < |entries| && 0 <= j < |b.entries| && entries[i].key == b.entries[j].key
          ensures Canonicalize(entries[i].value) == Canonicalize(b.entries[j].value)
        {
          FieldsAgree(entries, b.entries, i, j);
          SameMeaningSameForm(entries[i].value, b.entries[j].value);
        }
        SameFieldsSameForm(entries, b.entries);
      case _ =>
    }
  }

  lemma SameFieldsSameForm(a: seq<Entry>, b: seq<Entry>)
    requires WellFormed(PyDict(a)) && WellFormed(PyDict(b)) && Fields(a) == Fields(b)
    requires forall i, j :: 0 <= i < |a| && 0 <= j < |b| && a[i].key == b[j].key ==>
               Canonicalize(a[i].value) == Canonicalize(b[j].value)
    ensures Canonicalize(PyDict(a)) == Canonicalize(PyDict(b))
  {
    var ca, cb := CanonicalEntries(a), CanonicalEntries(b);
    assert UniqueKeys(ca) && UniqueKeys(cb);
    forall e ensures e in ca <==> e in cb {
      if e in ca { EntryInBoth(a, b, e); }
      if e in cb { EntryInBoth(b, a, e); }
    }
    SameEntriesSameMap(ca, cb);
    SortKeepsMap(ca);
    SortKeepsMap(cb);
    SortedDetermined(SortByKey(ca), SortByKey(cb));
    CanonicalDict(a);
    CanonicalDict(b);
  }

  lemma EntryInBoth(a: seq<Entry>, b: seq<Entry>, e: Entry)
    requires WellFormed(PyDict(a)) && Fields(a) == Fields(b) && e in CanonicalEntries(a)
    requires forall i, j :: 0 <= i < |a| && 0 <= j < |b| && a[i].key == b[j].key ==>
               Canonicalize(a[i].value) == Canonicalize(b[j].value)
    ensures e in CanonicalEntries(b)
  {
    var i :| 0 <= i < |a| && CanonicalEntries(a)[i] == e;
    FieldAt(a, i);
    var j := FieldFrom(b, e.key);
    assert CanonicalEntries(b)[j] == e;
  }

  /** Sorting a sorted value again changes nothing. */
  lemma CanonicalizeIdempotent(v: PyValue)
    requires WellFormed(v)
    ensures Canonicalize(Canonicalize(v)) == Canonicalize(v)
  {
    CanonicalizeKeepsMeaning(v);
    SameMeaningSameForm(Canonicalize(v), v);
  }
}
