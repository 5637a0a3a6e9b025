/** The pieces of java.lang.String and java.util.Objects that the student
    record relies on: lexicographic comparison (String.compareTo), splitting a
    line on a separator (String.split with a one-character pattern) and the
    hash of a one-element argument list (Objects.hash over String.hashCode).
    Characters are compared by their code; see README for the difference with
    Java's UTF-16 code units. */
module Chaines {

  /* ---------- String.compareTo ---------- */

  /** Java's String.compareTo: the difference of the first pair of characters
      that differ, or the difference of the lengths when one string is a prefix
      of the other. */
  function ComparerChaines(a: string, b: string): int
  {
    if a == [] || b == [] then |a| - |b|
    else if a[0] != b[0] then a[0] as int - b[0] as int
    else ComparerChaines(a[1..], b[1..])
  }

  /** Swapping the arguments negates the result exactly. */
  lemma {:induction false} ComparerChainesAntisymetrique(a: string, b: string)
    ensures ComparerChaines(a, b) == -ComparerChaines(b, a)
  {
    if a != [] && b != [] && a[0] == b[0] {
      ComparerChainesAntisymetrique(a[1..], b[1..]);
    }
  }

  /** The result is zero exactly when the strings are equal. */
  lemma {:induction false} ComparerChainesNulSsiEgales(a: string, b: string)
    ensures ComparerChaines(a, b) == 0 <==> a == b
  {
    if a != [] && b != [] && a[0] == b[0] {
      ComparerChainesNulSsiEgales(a[1..], b[1..]);
      assert a == [a[0]] + a[1..];
      assert b == [b[0]] + b[1..];
    }
  }

  /** "Comes strictly before" is transitive. */
  lemma {:induction false} ComparerChainesTransitive(a: string, b: string, c: string)
    requires ComparerChaines(a, b) < 0 && ComparerChaines(b, c) < 0
    ensures ComparerChaines(a, c) < 0
  {
    if a != [] && b != [] && c != [] && a[0] == b[0] && b[0] == c[0] {
      ComparerChainesTransitive(a[1..], b[1..], c[1..]);
    }
  }

  /** "Comes before or is equal" is transitive, so the comparison is a total order. */
  lemma ComparerChainesTransitiveLarge(a: string, b: string, c: string)
    requires ComparerChaines(a, b) <= 0 && ComparerChaines(b, c) <= 0
    ensures ComparerChaines(a, c) <= 0
  {
    ComparerChainesNulSsiEgales(a, b);
    ComparerChainesNulSsiEgales(b, c);
    if ComparerChaines(a, b) < 0 && ComparerChaines(b, c) < 0 {
      ComparerChainesTransitive(a, b, c);
    }
  }

  /** A proper prefix comes before the longer string. */
  lemma {:induction false} PrefixeAvant(a: string, b: string)
    requires |a| < |b| && a == b[..|a|]
    ensures ComparerChaines(a, b) < 0
  {
    if a != [] {
      assert a[0] == b[0];
      PrefixeAvant(a[1..], b[1..]);
    }
  }

  /* ---------- String.split ---------- */

  /** Every field between separators, empty ones included. */
  function Decouper(s: string, sep: char): (mots: seq<string>)
    ensures |mots| >= 1
  {
    if s == [] then [[]]
    else
      var reste := Decouper(s[1..], sep);
      if s[0] == sep then [[]] + reste
      else [[s[0]] + reste[0]] + reste[1..]
  }

  /** Drops the empty fields at the end, as String.split does. */
  function RetirerVidesFinaux(mots: seq<string>): (r: seq<string>)
    ensures |r| <= |mots| && r == mots[..|r|]
    ensures r != [] ==> r[|r| - 1] != []
    ensures forall i :: |r| <= i < |mots| ==> mots[i] == []
  {
    if mots == [] then []
    else if mots[|mots| - 1] == [] then RetirerVidesFinaux(mots[..|mots| - 1])
    else mots
  }

  /** String.split(sep): the whole string when the separator does not occur,
      otherwise the fields with the trailing empty ones removed. */
  function SeparerJava(s: string, sep: char): seq<string>
  {
    if sep !in s then [s] else RetirerVidesFinaux(Decouper(s, sep))
  }

  /** The fields joined with the separator between them. */
  function Joindre(mots: seq<string>, sep: char): string
  {
    if mots == [] then []
    else if |mots| == 1 then mots[0]
    else mots[0] + [sep] + Joindre(mots[1..], sep)
  }

  /** No field produced by Decouper holds the separator. */
  lemma {:induction false} DecouperSansSeparateur(s: string, sep: char)
    ensures forall i :: 0 <= i < |Decouper(s, sep)| ==> sep !in Decouper(s, sep)[i]
  {
    if s != [] {
      DecouperSansSeparateur(s[1..], sep);
    }
  }

  /** Joining the fields gives back the string that was split. */
  lemma {:induction false} JoindreDecouper(s: string, sep: char)
    ensures Joindre(Decouper(s, sep), sep) == s
  {
    if s != [] {
      var reste := Decouper(s[1..], sep);
      JoindreDecouper(s[1..], sep);
      if s[0] == sep {
        assert Decouper(s, sep)[1..] == reste;
      } else {
        var mots := Decouper(s, sep);
        assert mots[1..] == reste[1..];
        if |reste| == 1 {
          assert Joindre(mots, sep) == [s[0]] + reste[0];
        } else {
          assert Joindre(reste, sep) == reste[0] + [sep] + Joindre(reste[1..], sep);
        }
        assert s == [s[0]] + s[1..];
      }
    }
  }

  /** A field free of separators, followed by a separator, splits off as one field. */
  lemma {:induction false} DecouperChamp(w: string, sep: char, reste: string)
    requires sep !in w
    ensures Decouper(w + [sep] + reste, sep) == [w] + Decouper(reste, sep)
  {
    if w == [] {
      assert [] + [sep] + reste == [sep] + reste;
      assert ([sep] + reste)[1..] == reste;
    } else {
      DecouperChamp(w[1..], sep, reste);
      assert (w + [sep] + reste)[1..] == w[1..] + [sep] + reste;
      assert [w[0]] + w[1..] == w;
    }
  }

  /** A string free of separators is one field. */
  lemma {:induction false} DecouperSeul(w: string, sep: char)
    requires sep !in w
    ensures Decouper(w, sep) == [w]
  {
    if w != [] {
      DecouperSeul(w[1..], sep);
      assert [w[0]] + w[1..] == w;
    }
  }

  /** A separator splits a string into the fields of what precedes it
      followed by the fields of what follows it. */
  lemma {:induction false} DecouperConcat(a: string, sep: char, b: string)
    ensures Decouper(a + [sep] + b, sep) == Decouper(a, sep) + Decouper(b, sep)
  {
    if a == [] {
      assert a + [sep] + b == [sep] + b;
      DecouperTete(sep, b, sep);
    } else {
      DecouperConcat(a[1..], sep, b);
      DecouperConcatPas(a[0], a[1..], sep, b);
      assert [a[0]] + a[1..] == a;
    }
  }

  /** The inductive step of DecouperConcat: one more character in front. */
  lemma DecouperConcatPas(c: char, r: string, sep: char, b: string)
    requires Decouper(r + [sep] + b, sep) == Decouper(r, sep) + Decouper(b, sep)
    ensures Decouper([c] + r + [sep] + b, sep) == Decouper([c] + r, sep) + Decouper(b, sep)
  {
    var t := r + [sep] + b;
    assert [c] + r + [sep] + b == [c] + t;
    DecouperTete(c, t, sep);
    DecouperTete(c, r, sep);
    AjouterTeteConcat(c, sep, Decouper(r, sep), Decouper(b, sep));
  }

  /** Adding a character in front of the fields commutes with appending more fields. */
  lemma AjouterTeteConcat(c: char, sep: char, dr: seq<string>, db: seq<string>)
    requires dr != []
    ensures AjouterTete(c, sep, dr + db) == AjouterTete(c, sep, dr) + db
  {
    if c != sep {
      assert (dr + db)[1..] == dr[1..] + db;
    }
  }

  /** The fields of [c] + t, given the fields of t: a separator opens a new
      empty field, any other character goes in front of the first field. */
  function AjouterTete(c: char, sep: char, mots: seq<string>): seq<string>
    requires mots != []
  {
    if c == sep then [[]] + mots else [[c] + mots[0]] + mots[1..]
  }

  /** Decouper on a string given by its first character and the rest. */
  lemma DecouperTete(c: char, t: string, sep: char)
    ensures Decouper([c] + t, sep) == AjouterTete(c, sep, Decouper(t, sep))
  {
    assert ([c] + t)[1..] == t;
  }

  /** A string holding the separator splits into at least two fields. */
  lemma DecouperPlusieurs(s: string, sep: char)
    requires sep in s
    ensures |Decouper(s, sep)| >= 2
  {
    JoindreDecouper(s, sep);
    DecouperSansSeparateur(s, sep);
  }

  /** Splitting what Joindre produced gives back the fields, when no field holds the separator. */
  lemma {:induction false} DecouperJoindre(mots: seq<string>, sep: char)
    requires mots != []
    requires forall i :: 0 <= i < |mots| ==> sep !in mots[i]
    ensures Decouper(Joindre(mots, sep), sep) == mots
  {
    if |mots| == 1 {
      DecouperSeul(mots[0], sep);
    } else {
      DecouperJoindre(mots[1..], sep);
      DecouperChamp(mots[0], sep, Joindre(mots[1..], sep));
    }
  }

  /** The separator occurs in the join of two or more fields. */
  lemma JoindreContientSeparateur(mots: seq<string>, sep: char)
    requires |mots| >= 2
    ensures sep in Joindre(mots, sep)
  {
    assert Joindre(mots, sep) == mots[0] + [sep] + Joindre(mots[1..], sep);
    assert Joindre(mots, sep)[|mots[0]|] == sep;
  }

  /** String.split undoes Joindre when there are at least two fields, none holds
      the separator and the last one is not empty. */
  lemma SeparerJoindre(mots: seq<string>, sep: char)
    requires |mots| >= 2
    requires forall i :: 0 <= i < |mots| ==> sep !in mots[i]
    requires mots[|mots| - 1] != []
    ensures SeparerJava(Joindre(mots, sep), sep) == mots
  {
    JoindreContientSeparateur(mots, sep);
    DecouperJoindre(mots, sep);
  }

  /* ---------- String.hashCode and Objects.hash ---------- */

  /** Wrap-around to a signed 32-bit int. */
  function Int32(x: int): (r: int)
    ensures -0x8000_0000 <= r < 0x8000_0000
    ensures -0x8000_0000 <= x < 0x8000_0000 ==> r == x
    ensures (r - x) % 0x1_0000_0000 == 0
  {
    var m := x % 0x1_0000_0000;
    if m >= 0x8000_0000 then m - 0x1_0000_0000 else m
  }

  /** String.hashCode: s[0]*31^(n-1) + ... + s[n-1], in 32-bit arithmetic. */
  function HachageChaine(s: string): int
  {
    if s == [] then 0 else Int32(31 * HachageChaine(s[..|s| - 1]) + s[|s| - 1] as int)
  }

  /** Objects.hash(s) for one argument: 31 * 1 + s.hashCode(), in 32-bit arithmetic. */
  function HachageObjets(s: string): int
  {
    Int32(31 + HachageChaine(s))
  }
}
