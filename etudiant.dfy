/** The student record of Etudiant.java: four fields checked by every setter,
    a natural order on (prenom, nom), and identity by matricule. */
module Etudiants {
  import opened Chaines

  const MinMoyenne: real := 0.0
  const MaxMoyenne: real := 100.0
  const NbChiffresMatricule: nat := 7

  /** The field a failed check is about. */
  datatype Champ = Matricule | Prenom | Nom | Moyenne

  /** IllegalArgumentException, carrying the field whose check failed. */
  datatype Erreur = ArgumentInvalide(champ: Champ)

  /** How a setter ends: it returns normally or throws. */
  datatype Issue = Reussite | Levee(erreur: Erreur)

  /** The result of a constructor call that may throw. */
  datatype Resultat<T> = Ok(valeur: T) | Echec(erreur: Erreur)

  /* ---------- Validation ---------- */

  /** validerMatricule: exactly seven characters, whatever they are. */
  predicate ValiderMatricule(matricule: string)
  {
    |matricule| == NbChiffresMatricule
  }

  /** The isEmpty() guard of setPrenom and setNom. */
  predicate ValiderNom(nom: string)
  {
    nom != []
  }

  /** validerMoyenne: within [MIN_MOYENNE, MAX_MOYENNE], both bounds included. */
  predicate ValiderMoyenne(moyenne: real)
  {
    MinMoyenne <= moyenne <= MaxMoyenne
  }

  /** The four fields of a student, as a value. */
  datatype Fiche = Fiche(matricule: string, prenom: string, nom: string, moyenne: real)

  predicate FicheValide(f: Fiche)
  {
    ValiderMatricule(f.matricule) && ValiderNom(f.prenom) && ValiderNom(f.nom) && ValiderMoyenne(f.moyenne)
  }

  /** The outcome of the constructor's four setter calls, made in the order
      matricule, prenom, nom, moyenne: the first check that fails throws. */
  function VerifierChamps(f: Fiche): Issue
  {
    if !ValiderMatricule(f.matricule) then Levee(ArgumentInvalide(Matricule))
    else if !ValiderNom(f.prenom) then Levee(ArgumentInvalide(Prenom))
    else if !ValiderNom(f.nom) then Levee(ArgumentInvalide(Nom))
    else if !ValiderMoyenne(f.moyenne) then Levee(ArgumentInvalide(Moyenne))
    else Reussite
  }

  /** Construction succeeds exactly for valid fields; when it fails, it names
      an invalid field and every field checked before it is valid. */
  lemma VerifierChampsOrdre(f: Fiche)
    ensures VerifierChamps(f) == Reussite <==> FicheValide(f)
    ensures VerifierChamps(f) == Levee(ArgumentInvalide(Matricule)) <==> !ValiderMatricule(f.matricule)
    ensures VerifierChamps(f) == Levee(ArgumentInvalide(Prenom))
            <==> ValiderMatricule(f.matricule) && !ValiderNom(f.prenom)
    ensures VerifierChamps(f) == Levee(ArgumentInvalide(Nom))
            <==> ValiderMatricule(f.matricule) && ValiderNom(f.prenom) && !ValiderNom(f.nom)
    ensures VerifierChamps(f) == Levee(ArgumentInvalide(Moyenne))
            <==> ValiderMatricule(f.matricule) && ValiderNom(f.prenom) && ValiderNom(f.nom)
                 && !ValiderMoyenne(f.moyenne)
  {
  }

  /* ---------- Natural order (compareTo) ---------- */

  /** compareTo on the values: prenom first, then nom when the prenoms are equal. */
  function Comparer(a: Fiche, b: Fiche): int
  {
    var c := ComparerChaines(a.prenom, b.prenom);
    if c != 0 then c else ComparerChaines(a.nom, b.nom)
  }

  /** Swapping the records negates the comparison. */
  lemma ComparerAntisymetrique(a: Fiche, b: Fiche)
    ensures Comparer(a, b) == -Comparer(b, a)
  {
    ComparerChainesAntisymetrique(a.prenom, b.prenom);
    ComparerChainesAntisymetrique(a.nom, b.nom);
  }

  /** Two records tie exactly when prenom and nom are both equal; matricule
      and moyenne play no part. */
  lemma ComparerNulSsiMemeNom(a: Fiche, b: Fiche)
    ensures Comparer(a, b) == 0 <==> a.prenom == b.prenom && a.nom == b.nom
  {
    ComparerChainesNulSsiEgales(a.prenom, b.prenom);
    ComparerChainesNulSsiEgales(a.nom, b.nom);
  }

  /** "Comes before or ties" is transitive: with totality (antisymmetry) the
      comparison is a total preorder, as a sort requires. */
  lemma ComparerTransitif(a: Fiche, b: Fiche, c: Fiche)
    requires Comparer(a, b) <= 0 && Comparer(b, c) <= 0
    ensures Comparer(a, c) <= 0
  {
    var ab, bc := ComparerChaines(a.prenom, b.prenom), ComparerChaines(b.prenom, c.prenom);
    ComparerChainesNulSsiEgales(a.prenom, b.prenom);
    ComparerChainesNulSsiEgales(b.prenom, c.prenom);
    ComparerChainesNulSsiEgales(a.prenom, c.prenom);
    if ab < 0 && bc < 0 {
      ComparerChainesTransitive(a.prenom, b.prenom, c.prenom);
    } else if ab == 0 && bc == 0 {
      ComparerChainesTransitiveLarge(a.nom, b.nom, c.nom);
    }
  }

  /** The three comparisons asserted by the unit test of compareTo. */
  lemma ExemplesCompareTo()
    ensures Comparer(Fiche("1234567", "Alice", "Dupont", 85.0), Fiche("2345678", "Bob", "Martin", 90.0)) < 0
    ensures Comparer(Fiche("2345678", "Bob", "Martin", 90.0), Fiche("1234567", "Alice", "Dupont", 85.0)) > 0
    ensures Comparer(Fiche("1234567", "Alice", "Dupont", 85.0), Fiche("3456789", "Alice", "Durand", 78.0)) < 0
  {
    var alice, bob := "Alice", "Bob";
    assert alice[0] == 'A' && bob[0] == 'B';
    ComparerChainesAntisymetrique(bob, alice);
    ComparerChainesNulSsiEgales(alice, alice);
    var dupont, durand := "Dupont", "Durand";
    assert dupont[0] == durand[0] && dupont[1] == durand[1] && dupont[2] == 'p' && durand[2] == 'r';
    assert dupont[1..][1..] == "pont" && durand[1..][1..] == "rand";
  }

  /** Etudiant.toString, with the number text of the moyenne as a parameter. */
  function Decrire(f: Fiche, ecrireNombre: real -> string): string
  {
    "Matricule: " + f.matricule + ", Prenom: " + f.prenom + ", Nom: " + f.nom
      + ", Moyenne: " + ecrireNombre(f.moyenne)
  }

  /** What equals may be handed: null, an Etudiant, or any other object. */
  datatype Objet = Nul | UnEtudiant(etudiant: Etudiant) | AutreObjet

  /* ---------- The object ---------- */

  class Etudiant {
    var matricule: string
    var prenom: string
    var nom: string
    var moyenne: real

    /** The four fields as a value. */
    function Valeur(): Fiche
      reads this
    {
      Fiche(matricule, prenom, nom, moyenne)
    }

    /** The class invariant: every field passes its check. */
    ghost predicate Valid()
      reads this
    {
      FicheValide(Valeur())
    }

    /** The object as allocated, before the constructor body runs: Java's null
        strings are read as empty strings here. This state is not valid, and
        Java offers no constructor that stops here: only Nouveau stands for
        new Etudiant(matricule, prenom, nom, moyenne). */
    constructor ()
      ensures Valeur() == Fiche([], [], [], 0.0)
    {
      matricule, prenom, nom, moyenne := [], [], [], 0.0;
    }

    /** new Etudiant(matricule, prenom, nom, moyenne): the four setters in
        order; the first that throws ends the construction and no object is
        returned. */
    static method Nouveau(matricule: string, prenom: string, nom: string, moyenne: real)
      returns (r: Resultat<Etudiant>)
      ensures r.Ok? <==> FicheValide(Fiche(matricule, prenom, nom, moyenne))
      ensures r.Ok? ==> fresh(r.valeur) && r.valeur.Valid()
                        && r.valeur.Valeur() == Fiche(matricule, prenom, nom, moyenne)
      ensures r.Echec? ==> Levee(r.erreur) == VerifierChamps(Fiche(matricule, prenom, nom, moyenne))
    {
      VerifierChampsOrdre(Fiche(matricule, prenom, nom, moyenne));
      var e := new Etudiant();
      var issue := e.SetMatricule(matricule);
      if issue.Levee? {
        return Echec(issue.erreur);
      }
      issue := e.SetPrenom(prenom);
      if issue.Levee? {
        return Echec(issue.erreur);
      }
      issue := e.SetNom(nom);
      if issue.Levee? {
        return Echec(issue.erreur);
      }
      issue := e.SetMoyenne(moyenne);
      if issue.Levee? {
        return Echec(issue.erreur);
      }
      return Ok(e);
    }

    /* Getters: on a valid object each returns a value that passes its check. */

    function GetMatricule(): (m: string)
      reads this
      ensures Valid() ==> ValiderMatricule(m)
    {
      matricule
    }

    function GetPrenom(): (p: string)
      reads this
      ensures Valid() ==> p != []
    {
      prenom
    }

    function GetNom(): (n: string)
      reads this
      ensures Valid() ==> n != []
    {
      nom
    }

    function GetMoyenne(): (x: real)
      reads this
      ensures Valid() ==> MinMoyenne <= x <= MaxMoyenne
    {
      moyenne
    }

    /* Setters: each checks its argument, throws and changes nothing when the
       check fails, and otherwise changes its own field and no other. */

    method SetMatricule(matricule: string) returns (issue: Issue)
      modifies this
      ensures issue == if ValiderMatricule(matricule) then Reussite else Levee(ArgumentInvalide(Matricule))
      ensures Valeur() == if issue.Reussite? then old(Valeur()).(matricule := matricule) else old(Valeur())
      ensures old(Valid()) ==> Valid()
    {
      if !ValiderMatricule(matricule) {
        return Levee(ArgumentInvalide(Matricule));
      }
      this.matricule := matricule;
      return Reussite;
    }

    method SetPrenom(prenom: string) returns (issue: Issue)
      modifies this
      ensures issue == if ValiderNom(prenom) then Reussite else Levee(ArgumentInvalide(Prenom))
      ensures Valeur() == if issue.Reussite? then old(Valeur()).(prenom := prenom) else old(Valeur())
      ensures old(Valid()) ==> Valid()
    {
      if prenom == [] {
        return Levee(ArgumentInvalide(Prenom));
      }
      this.prenom := prenom;
      return Reussite;
    }

    method SetNom(nom: string) returns (issue: Issue)
      modifies this
      ensures issue == if ValiderNom(nom) then Reussite else Levee(ArgumentInvalide(Nom))
      ensures Valeur() == if issue.Reussite? then old(Valeur()).(nom := nom) else old(Valeur())
      ensures old(Valid()) ==> Valid()
    {
      if nom == [] {
        return Levee(ArgumentInvalide(Nom));
      }
      this.nom := nom;
      return Reussite;
    }

    method SetMoyenne(moyenne: real) returns (issue: Issue)
      modifies this
      ensures issue == if ValiderMoyenne(moyenne) then Reussite else Levee(ArgumentInvalide(Moyenne))
      ensures Valeur() == if issue.Reussite? then old(Valeur()).(moyenne := moyenne) else old(Valeur())
      ensures old(Valid()) ==> Valid()
    {
      if !ValiderMoyenne(moyenne) {
        return Levee(ArgumentInvalide(Moyenne));
      }
      this.moyenne := moyenne;
      return Reussite;
    }

    /** compareTo: negative, zero or positive as this record comes before, ties
        with or comes after the other in the (prenom, nom) order. */
    function CompareTo(autre: Etudiant): (r: int)
      reads this, autre
      ensures r == -Comparer(autre.Valeur(), Valeur())
      ensures r == 0 <==> prenom == autre.prenom && nom == autre.nom
    {
      ComparerAntisymetrique(Valeur(), autre.Valeur());
      ComparerNulSsiMemeNom(Valeur(), autre.Valeur());
      Comparer(Valeur(), autre.Valeur())
    }

    /** hashCode: Objects.hash(matricule), so a function of the matricule alone. */
    function HashCode(): (h: int)
      reads this
      ensures -0x8000_0000 <= h < 0x8000_0000
    {
      HachageObjets(matricule)
    }

    /** equals: true for an Etudiant with the same matricule, whatever its other
        fields; false for null and for any other kind of object. Equal records
        have equal hash codes. */
    function Equals(obj: Objet): (r: bool)
      reads this, if obj.UnEtudiant? then {obj.etudiant} else {}
      ensures obj == UnEtudiant(this) ==> r
      ensures r ==> obj.UnEtudiant? && HashCode() == obj.etudiant.HashCode()
    {
      match obj
      case UnEtudiant(autre) => matricule == autre.matricule
      case _ => false
    }
  }

  /** equals is symmetric and transitive, and ignores prenom, nom and moyenne. */
  lemma EqualsEquivalence(a: Etudiant, b: Etudiant, c: Etudiant)
    ensures a.Equals(UnEtudiant(b)) <==> a.matricule == b.matricule
    ensures a.Equals(UnEtudiant(b)) <==> b.Equals(UnEtudiant(a))
    ensures a.Equals(UnEtudiant(b)) && b.Equals(UnEtudiant(c)) ==> a.Equals(UnEtudiant(c))
  {
  }

  /** The four assertions of the unit test of equals. */
  lemma ExemplesEquals(e1: Etudiant, e2: Etudiant, e3: Etudiant)
    requires e1.Valeur() == Fiche("1234567", "Alice", "Dupont", 85.0)
    requires e2.Valeur() == Fiche("1234567", "Alice", "Dupont", 85.0)
    requires e3.Valeur() == Fiche("2345678", "Bob", "Martin", 90.0)
    ensures e1.Equals(UnEtudiant(e2))
    ensures !e1.Equals(UnEtudiant(e3))
    ensures !e1.Equals(Nul) && !e1.Equals(AutreObjet)
  {
    assert e1.matricule[0] != e3.matricule[0];
  }
}
