/** The order in which form_plugins lists plugins: Python's
    sorted(plugin_defns, key=lambda p: p['id']), a stable sort on the id
    string under Python's string order (code point by code point, a proper
    prefix first). */
module PluginOrder {
  import opened PluginCatalog

  /** Python's a <= b on str. */
  predicate StrLe(a: string, b: string) {
    a == [] || (b != [] && (a[0] < b[0] || (a[0] == b[0] && StrLe(a[1..], b[1..]))))
  }

  lemma {:induction false} StrLeRefl(a: string)
    ensures StrLe(a, a)
  {
    if a != [] {
      StrLeRefl(a[1..]);
    }
  }

  lemma {:induction false} StrLeTotal(a: string, b: string)
    ensures StrLe(a, b) || StrLe(b, a)
  {
    if a != [] && b != [] && a[0] == b[0] {
      StrLeTotal(a[1..], b[1..]);
    }
  }

  lemma {:induction false} StrLeTrans(a: string, b: string, c: string)
    requires StrLe(a, b) && StrLe(b, c)
    ensures StrLe(a, c)
  {
    if a != [] && b != [] && c != [] && a[0] == b[0] && b[0] == c[0] {
      StrLeTrans(a[1..], b[1..], c[1..]);
    }
  }

  lemma {:induction false} StrLeAntisym(a: string, b: string)
    requires StrLe(a, b) && StrLe(b, a)
    ensures a == b
  {
    if a != [] && b != [] {
      StrLeAntisym(a[1..], b[1..]);
      assert a == [a[0]] + a[1..] && b == [b[0]] + b[1..];
    }
  }

  predicate SortedById(s: seq<PluginDefn>) {
    forall i, j :: 0 <= i < j < |s| ==> StrLe(s[i].id, s[j].id)
  }

  /** Put x before the first definition whose id is not below x's. */
  function Insert(x: PluginDefn, s: seq<PluginDefn>): seq<PluginDefn> {
    if s == [] || StrLe(x.id, s[0].id) then [x] + s
    else [s[0]] + Insert(x, s[1..])
  }

  /** The definitions in ascending id order, equal ids in their given order. */
  function SortById(s: seq<PluginDefn>): seq<PluginDefn> {
    if s == [] then [] else Insert(s[0], SortById(s[1..]))
  }

  /** The definitions with the given id, in order. */
  function WithId(s: seq<PluginDefn>, id: string): seq<PluginDefn> {
    if s == [] then []
    else (if s[0].id == id then [s[0]] else []) + WithId(s[1..], id)
  }

  lemma {:induction false} InsertSorted(x: PluginDefn, s: seq<PluginDefn>)
    requires SortedById(s)
    ensures SortedById(Insert(x, s))
    ensures multiset(Insert(x, s)) == multiset(s) + multiset{x}
    ensures |Insert(x, s)| == |s| + 1
    ensures Insert(x, s)[0] == x || (s != [] && Insert(x, s)[0] == s[0])
  {
    var r := Insert(x, s);
    if s == [] || StrLe(x.id, s[0].id) {
      forall i, j | 0 <= i < j < |r|
        ensures StrLe(r[i].id, r[j].id)
      {
        if i == 0 && j > 1 {
          StrLeTrans(x.id, s[0].id, s[j - 1].id);
        }
      }
    } else {
      var t := s[1..];
      assert SortedById(t);
      InsertSorted(x, t);
      var rest := Insert(x, t);
      StrLeTotal(x.id, s[0].id);
      assert r == [s[0]] + rest;
      forall j | 0 < j < |r|
        ensures StrLe(s[0].id, r[j].id)
      {
        var e := rest[j - 1];
        assert e in multiset(rest);
        assert e == x || e in multiset(t);
        if e != x {
          var k :| 0 <= k < |t| && t[k] == e;
          assert s[k + 1] == e;
        }
      }
      assert s == [s[0]] + t;
    }
  }

  lemma {:induction false} SortByIdSpec(s: seq<PluginDefn>)
    ensures SortedById(SortById(s))
    ensures multiset(SortById(s)) == multiset(s)
    ensures |SortById(s)| == |s|
  {
    if s != [] {
      SortByIdSpec(s[1..]);
      InsertSorted(s[0], SortById(s[1..]));
      assert s == [s[0]] + s[1..];
    }
  }

  lemma {:induction false} WithIdInsert(x: PluginDefn, s: seq<PluginDefn>, id: string)
    ensures WithId(Insert(x, s), id) == (if x.id == id then [x] else []) + WithId(s, id)
  {
    var r := Insert(x, s);
    if s == [] || StrLe(x.id, s[0].id) {
      assert r[1..] == s;
    } else {
      StrLeRefl(x.id);
      assert s[0].id != x.id;
      WithIdInsert(x, s[1..], id);
      assert r[1..] == Insert(x, s[1..]);
    }
  }

  /** The sort is stable: the definitions sharing an id keep their order. */
  lemma {:induction false} SortByIdStable(s: seq<PluginDefn>, id: string)
    ensures WithId(SortById(s), id) == WithId(s, id)
  {
    if s != [] {
      SortByIdStable(s[1..], id);
      WithIdInsert(s[0], SortById(s[1..]), id);
    }
  }

  lemma {:induction false} WithIdMember(s: seq<PluginDefn>, id: string)
    requires WithId(s, id) != []
    ensures exists i :: 0 <= i < |s| && s[i].id == id
  {
    if s[0].id != id {
      WithIdMember(s[1..], id);
      var i :| 0 <= i < |s[1..]| && s[1..][i].id == id;
      assert s[i + 1].id == id;
    }
  }

  /** Two sorted arrangements with the same definitions per id, in the same
      order, are the same arrangement. */
  lemma {:induction false} SortedSameGroupsEqual(a: seq<PluginDefn>, b: seq<PluginDefn>)
    requires SortedById(a) && SortedById(b)
    requires forall id :: WithId(a, id) == WithId(b, id)
    ensures a == b
    decreases |a|
  {
    if a != [] {
      var k := a[0].id;
      assert WithId(a, k) != [];
      WithIdMember(b, k);
      var i :| 0 <= i < |b| && b[i].id == k;
      assert StrLe(b[0].id, k) by {
        if i == 0 {
          StrLeRefl(k);
        }
      }
      assert WithId(a, b[0].id) != [] by {
        assert WithId(b, b[0].id) != [];
      }
      WithIdMember(a, b[0].id);
      var j :| 0 <= j < |a| && a[j].id == b[0].id;
      assert StrLe(k, b[0].id) by {
        if j == 0 {
          StrLeRefl(k);
        }
      }
      StrLeAntisym(k, b[0].id);
      assert a[0] == b[0] by {
        assert WithId(a, k)[0] == a[0];
        assert WithId(b, k)[0] == b[0];
      }
      forall id
        ensures WithId(a[1..], id) == WithId(b[1..], id)
      {
        var head := if k == id then [a[0]] else [];
        assert WithId(a, id) == head + WithId(a[1..], id);
        assert WithId(b, id) == head + WithId(b[1..], id);
        assert (head + WithId(a[1..], id))[|head|..] == WithId(a[1..], id);
        assert (head + WithId(b[1..], id))[|head|..] == WithId(b[1..], id);
      }
      SortedSameGroupsEqual(a[1..], b[1..]);
      assert a == [a[0]] + a[1..] && b == [b[0]] + b[1..];
    }
  }

  /** SortById is the stable sort by id: any arrangement of s that is sorted
      by id and keeps the given order among equal ids is SortById(s), so it
      is what Python's sorted produces. */
  lemma StableSortIsUnique(s: seq<PluginDefn>, t: seq<PluginDefn>)
    requires SortedById(t)
    requires forall id :: WithId(t, id) == WithId(s, id)
    ensures t == SortById(s)
  {
    SortByIdSpec(s);
    forall id
      ensures WithId(t, id) == WithId(SortById(s), id)
    {
      SortByIdStable(s, id);
    }
    SortedSameGroupsEqual(t, SortById(s));
  }
}
