/** The contract of List.sort(null) over Etudiant: a stable sort in the
    natural order given by compareTo. It is defined here as insertion sort,
    and proved to give a sorted permutation of its input in which records that
    tie keep their relative order, the three properties List.sort promises. */
module Tri {
  import opened Etudiants

  /** Every record comes before or ties with every later one. */
  predicate Triee(s: seq<Fiche>)
  {
    forall i, j :: 0 <= i < j < |s| ==> Comparer(s[i], s[j]) <= 0
  }

  /** Inserts x before the first record that comes strictly after it, so after
      every record it ties with. */
  function Inserer(t: seq<Fiche>, x: Fiche): seq<Fiche>
  {
    if t == [] then [x]
    else if Comparer(t[0], x) > 0 then [x] + t
    else [t[0]] + Inserer(t[1..], x)
  }

  /** Stable insertion sort: each record in turn is inserted into the sorted
      prefix. */
  function TriStable(s: seq<Fiche>): seq<Fiche>
  {
    if s == [] then [] else Inserer(TriStable(s[..|s| - 1]), s[|s| - 1])
  }

  /** The sort key: two records tie exactly when their keys are equal. */
  function Cle(f: Fiche): (string, string)
  {
    (f.prenom, f.nom)
  }

  /** The records of s whose key is k, in the order of s. */
  function Filtre(s: seq<Fiche>, k: (string, string)): seq<Fiche>
  {
    if s == [] then []
    else (if Cle(s[0]) == k then [s[0]] else []) + Filtre(s[1..], k)
  }

  lemma {:induction false} FiltreConcat(a: seq<Fiche>, b: seq<Fiche>, k: (string, string))
    ensures Filtre(a + b, k) == Filtre(a, k) + Filtre(b, k)
  {
    if a == [] {
      assert a + b == b;
    } else {
      FiltreConcat(a[1..], b, k);
      assert (a + b)[1..] == a[1..] + b;
    }
  }

  /** No record of s has key k. */
  lemma {:induction false} FiltreVide(s: seq<Fiche>, k: (string, string))
    requires forall i :: 0 <= i < |s| ==> Cle(s[i]) != k
    ensures Filtre(s, k) == []
  {
    if s != [] {
      FiltreVide(s[1..], k);
    }
  }

  lemma {:induction false} InsererPermutation(t: seq<Fiche>, x: Fiche)
    ensures multiset(Inserer(t, x)) == multiset(t) + multiset{x}
  {
    if t != [] && Comparer(t[0], x) <= 0 {
      InsererPermutation(t[1..], x);
      assert t == [t[0]] + t[1..];
    }
  }

  lemma {:induction false} InsererTriee(t: seq<Fiche>, x: Fiche)
    requires Triee(t)
    ensures Triee(Inserer(t, x))
  {
    if t == [] {
    } else if Comparer(t[0], x) > 0 {
      ComparerAntisymetrique(t[0], x);
      forall j | 0 <= j < |t|
        ensures Comparer(x, t[j]) <= 0
      {
        if j > 0 {
          ComparerTransitif(x, t[0], t[j]);
        }
      }
    } else {
      InsererTriee(t[1..], x);
      InsererPermutation(t[1..], x);
      var u := Inserer(t[1..], x);
      forall j | 0 <= j < |u|
        ensures Comparer(t[0], u[j]) <= 0
      {
        assert u[j] in multiset(u);
        assert u[j] in multiset(t[1..]) || u[j] == x;
        if u[j] != x {
          var m :| 1 <= m < |t| && t[m] == u[j] by {
            assert u[j] in t[1..];
          }
        }
      }
    }
  }

  /** Inserting into a sorted sequence adds x after the records it ties with
      and moves no other record of its key. */
  lemma {:induction false} InsererFiltre(t: seq<Fiche>, x: Fiche, k: (string, string))
    requires Triee(t)
    ensures Filtre(Inserer(t, x), k) == Filtre(t, k) + (if Cle(x) == k then [x] else [])
  {
    if t == [] {
    } else if Comparer(t[0], x) > 0 {
      if Cle(x) == k {
        forall i | 0 <= i < |t|
          ensures Cle(t[i]) != k
        {
          ComparerNulSsiMemeNom(t[0], x);
          ComparerNulSsiMemeNom(t[0], t[i]);
        }
        FiltreVide(t, k);
      }
      FiltreConcat([x], t, k);
    } else {
      InsererFiltre(t[1..], x, k);
    }
  }

  /** The result of the sort is sorted in the natural order. */
  lemma {:induction false} TriStableTriee(s: seq<Fiche>)
    ensures Triee(TriStable(s))
  {
    if s != [] {
      TriStableTriee(s[..|s| - 1]);
      InsererTriee(TriStable(s[..|s| - 1]), s[|s| - 1]);
    }
  }

  /** The result of the sort is a permutation of its input. */
  lemma {:induction false} TriStablePermutation(s: seq<Fiche>)
    ensures multiset(TriStable(s)) == multiset(s)
  {
    if s != [] {
      TriStablePermutation(s[..|s| - 1]);
      InsererPermutation(TriStable(s[..|s| - 1]), s[|s| - 1]);
      assert s == s[..|s| - 1] + [s[|s| - 1]];
    }
  }

  /** The sort is stable: for every key, the records with that key appear in
      the same relative order before and after sorting. */
  lemma {:induction false} TriStableStable(s: seq<Fiche>, k: (string, string))
    ensures Filtre(TriStable(s), k) == Filtre(s, k)
  {
    if s != [] {
      var init, x := s[..|s| - 1], s[|s| - 1];
      TriStableStable(init, k);
      TriStableTriee(init);
      InsererFiltre(TriStable(init), x, k);
      FiltreConcat(init, [x], k);
      assert s == init + [x];
    }
  }

  /** An already sorted sequence is left as it is. */
  lemma {:induction false} TriStableDejaTriee(s: seq<Fiche>)
    requires Triee(s)
    ensures TriStable(s) == s
  {
    if s != [] {
      var init, x := s[..|s| - 1], s[|s| - 1];
      TriStableDejaTriee(init);
      InsererEnFin(init, x);
      assert s == init + [x];
    }
  }

  /** Inserting a record that no earlier record comes strictly after appends it. */
  lemma {:induction false} InsererEnFin(t: seq<Fiche>, x: Fiche)
    requires forall i :: 0 <= i < |t| ==> Comparer(t[i], x) <= 0
    ensures Inserer(t, x) == t + [x]
  {
    if t != [] {
      InsererEnFin(t[1..], x);
      assert t == [t[0]] + t[1..];
    }
  }
}
