/** The order the ContactStore keeps its records in: `sorters: 'familyName'`
    (assets/app/app.js:95-98), ascending by family name under JavaScript's
    string comparison, which compares character by character. */
module FamilyOrder {
  import opened Contacts

  /** a sorts no later than b: lexicographic on characters, a proper prefix first. */
  predicate NameLe(a: string, b: string)
    decreases |a|
  {
    if a == [] then true
    else if b == [] then false
    else if a[0] != b[0] then a[0] < b[0]
    else NameLe(a[1..], b[1..])
  }

  lemma {:induction false} NameLeReflexive(a: string)
    ensures NameLe(a, a)
  {
    if a != [] {
      NameLeReflexive(a[1..]);
    }
  }

  lemma {:induction false} NameLeTotal(a: string, b: string)
    ensures NameLe(a, b) || NameLe(b, a)
    decreases |a|
  {
    if a != [] && b != [] && a[0] == b[0] {
      NameLeTotal(a[1..], b[1..]);
    }
  }

  lemma {:induction false} NameLeTransitive(a: string, b: string, c: string)
    requires NameLe(a, b) && NameLe(b, c)
    ensures NameLe(a, c)
    decreases |a|
  {
    if a != [] && b != [] && c != [] && a[0] == b[0] && b[0] == c[0] {
      NameLeTransitive(a[1..], b[1..], c[1..]);
    }
  }

  /** Two names that each sort no later than the other are equal. */
  lemma {:induction false} NameLeAntisymmetric(a: string, b: string)
    requires NameLe(a, b) && NameLe(b, a)
    ensures a == b
    decreases |a|
  {
    if a != [] && b != [] {
      NameLeAntisymmetric(a[1..], b[1..]);
      assert a == [a[0]] + a[1..];
      assert b == [b[0]] + b[1..];
    }
  }

  /** Non-decreasing by family name. */
  predicate SortedByFamilyName(s: seq<Contact>) {
    forall i, j :: 0 <= i < j < |s| ==> NameLe(s[i].familyName, s[j].familyName)
  }

  /** Puts c in front of the first record it sorts no later than. */
  function Insert(c: Contact, s: seq<Contact>): (r: seq<Contact>)
    ensures multiset(r) == multiset(s) + multiset{c}
  {
    if s == [] then [c]
    else if NameLe(c.familyName, s[0].familyName) then [c] + s
    else
      assert s == [s[0]] + s[1..];
      [s[0]] + Insert(c, s[1..])
  }

  /** The records ordered by family name (insertion sort). */
  function SortByFamilyName(s: seq<Contact>): (r: seq<Contact>)
    ensures multiset(r) == multiset(s)
  {
    if s == [] then []
    else
      assert s == [s[0]] + s[1..];
      Insert(s[0], SortByFamilyName(s[1..]))
  }

  lemma {:induction false} InsertSorted(c: Contact, s: seq<Contact>)
    requires SortedByFamilyName(s)
    ensures SortedByFamilyName(Insert(c, s))
  {
    if s == [] {
    } else if NameLe(c.familyName, s[0].familyName) {
      var r := [c] + s;
      forall i, j | 0 <= i < j < |r|
        ensures NameLe(r[i].familyName, r[j].familyName)
      {
        if i == 0 && j > 1 {
          NameLeTransitive(c.familyName, s[0].familyName, s[j - 1].familyName);
        }
      }
    } else {
      NameLeTotal(c.familyName, s[0].familyName);
      InsertSorted(c, s[1..]);
      var t := Insert(c, s[1..]);
      var r := [s[0]] + t;
      forall i, j | 0 <= i < j < |r|
        ensures NameLe(r[i].familyName, r[j].familyName)
      {
        if i == 0 {
          // r[j] is c or an element of s[1..]; s[0] sorts no later than either.
          assert r[j] in multiset(t);
          assert r[j] in multiset(s[1..]) + multiset{c};
          if r[j] != c {
            assert r[j] in multiset(s[1..]);
            var k :| 0 <= k < |s[1..]| && s[1..][k] == r[j];
            assert NameLe(s[0].familyName, s[k + 1].familyName);
          }
        }
      }
    }
  }

  lemma {:induction false} SortByFamilyNameSorted(s: seq<Contact>)
    ensures SortedByFamilyName(SortByFamilyName(s))
  {
    if s != [] {
      SortByFamilyNameSorted(s[1..]);
      InsertSorted(s[0], SortByFamilyName(s[1..]));
    }
  }

  /** Leaving one element out of a sorted sequence keeps it sorted. */
  lemma SortedWithout(b: seq<Contact>, k: nat)
    requires k < |b| && SortedByFamilyName(b)
    ensures SortedByFamilyName(b[..k] + b[k + 1..])
  {
  }

  /** Sorted orders of the same records start with the same family name. */
  lemma HeadsAgree(a: seq<Contact>, b: seq<Contact>)
    requires SortedByFamilyName(a) && SortedByFamilyName(b)
    requires multiset(a) == multiset(b) && a != []
    ensures b != [] && a[0].familyName == b[0].familyName
  {
    assert a[0] in multiset(b);
    assert b[0] in multiset(a);
    var m :| 0 <= m < |a| && a[m] == b[0];
    var k :| 0 <= k < |b| && b[k] == a[0];
    NameLeReflexive(a[0].familyName);
    NameLeReflexive(b[0].familyName);
    assert NameLe(a[0].familyName, a[m].familyName);
    assert NameLe(b[0].familyName, b[k].familyName);
    NameLeAntisymmetric(a[0].familyName, b[0].familyName);
  }

  /** In a sorted sequence, everything between two records with the same
      family name has that family name too. */
  lemma SameNameUpTo(b: seq<Contact>, k: nat)
    requires SortedByFamilyName(b) && k < |b|
    requires b[0].familyName == b[k].familyName
    ensures forall i :: 0 <= i <= k ==> b[i].familyName == b[k].familyName
  {
    forall i | 0 < i < k
      ensures b[i].familyName == b[k].familyName
    {
      assert NameLe(b[0].familyName, b[i].familyName);
      NameLeAntisymmetric(b[i].familyName, b[k].familyName);
    }
  }

  /** The tail of a sorted sequence is sorted. */
  lemma SortedTail(a: seq<Contact>)
    requires SortedByFamilyName(a) && a != []
    ensures SortedByFamilyName(a[1..])
  {
  }

  /** Two orders of the same records that are both sorted by family name
      agree on the family name at every position: they can differ only in
      how records with equal family names are arranged. */
  lemma {:induction false} SortedPermutationsAgree(a: seq<Contact>, b: seq<Contact>)
    requires SortedByFamilyName(a) && SortedByFamilyName(b)
    requires multiset(a) == multiset(b)
    ensures |a| == |b|
    ensures forall i :: 0 <= i < |a| ==> a[i].familyName == b[i].familyName
    decreases |a|
  {
    assert |a| == |multiset(a)| == |multiset(b)| == |b|;
    if a != [] {
      HeadsAgree(a, b);
      assert a[0] in multiset(b);
      var k :| 0 <= k < |b| && b[k] == a[0];
      SameNameUpTo(b, k);
      RemoveMatching(a, b, k);
      SortedWithout(b, k);
      SortedTail(a);
      SortedPermutationsAgree(a[1..], b[..k] + b[k + 1..]);
      AgreeAfterRemoval(a, b, k);
    }
  }

  /** Taking the first record of a and the same record of b out of two
      orders of the same records leaves two orders of the same records. */
  lemma RemoveMatching(a: seq<Contact>, b: seq<Contact>, k: nat)
    requires multiset(a) == multiset(b) && a != [] && k < |b| && b[k] == a[0]
    ensures multiset(a[1..]) == multiset(b[..k] + b[k + 1..])
  {
    assert b == b[..k] + [b[k]] + b[k + 1..];
    assert a == [a[0]] + a[1..];
    assert multiset(a) == multiset{a[0]} + multiset(a[1..]);
    assert multiset(b) == multiset(b[..k]) + multiset{b[k]} + multiset(b[k + 1..]);
    var rest := b[..k] + b[k + 1..];
    assert multiset(rest) == multiset(b[..k]) + multiset(b[k + 1..]);
    assert multiset(b) == multiset(rest) + multiset{a[0]};
    assert multiset(a) == multiset(a[1..]) + multiset{a[0]};
    forall x
      ensures multiset(a[1..])[x] == multiset(rest)[x]
    {
      assert multiset(a)[x] == multiset(b)[x];
    }
  }

  /** The last step of SortedPermutationsAgree: re-indexing the tail. */
  lemma AgreeAfterRemoval(a: seq<Contact>, b: seq<Contact>, k: nat)
    requires |a| == |b| && k < |b| && a != []
    requires forall i :: 0 <= i <= k ==> b[i].familyName == a[0].familyName
    requires forall i :: 0 <= i < |a| - 1 ==>
      a[1..][i].familyName == (b[..k] + b[k + 1..])[i].familyName
    ensures forall i :: 0 <= i < |a| ==> a[i].familyName == b[i].familyName
  {
    var rest := b[..k] + b[k + 1..];
    forall i | 0 <= i < |a|
      ensures a[i].familyName == b[i].familyName
    {
      if 0 < i <= k {
        assert a[i] == a[1..][i - 1] && rest[i - 1] == b[i - 1];
      } else if i > k {
        assert a[i] == a[1..][i - 1] && rest[i - 1] == b[i];
      }
    }
  }
}
