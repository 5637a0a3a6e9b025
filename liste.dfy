/** The student list of ListeEtudiants.java: loading from the lines of a
    delimited file, the clamped bonus, the sort in natural order, and the two
    renderings (the data lines written back and the text of toString). */
module Listes {
  import opened Chaines
  import opened Etudiants
  import opened Tri

  datatype Option<T> = None | Some(value: T)

  /** The field separator of the file format matricule;prenom;nom;moyenne. */
  const Separateur: char := ';'
  const NbChamps: nat := 4

  /* ---------- One line of the file ---------- */

  /** The line written for one record: matricule;prenom;nom;moyenne. */
  function LigneDe(f: Fiche, ecrireNombre: real -> string): string
  {
    Joindre([f.matricule, f.prenom, f.nom, ecrireNombre(f.moyenne)], Separateur)
  }

  /** Why a data line gave no record. */
  datatype Cause = NombreDeChamps(trouves: nat) | MoyenneIllisible | Invalide(erreur: Erreur)

  datatype Analyse = Lue(fiche: Fiche) | Rejetee(cause: Cause)

  /** One data line: split on ';', read the fourth field as a number, then
      construct the record, whose setters check the four fields. */
  function AnalyserLigne(ligne: string, lireNombre: string -> Option<real>): Analyse
  {
    var mots := SeparerJava(ligne, Separateur);
    if |mots| != NbChamps then Rejetee(NombreDeChamps(|mots|))
    else match lireNombre(mots[3])
      case None => Rejetee(MoyenneIllisible)
      case Some(moyenne) =>
        var f := Fiche(mots[0], mots[1], mots[2], moyenne);
        match VerifierChamps(f)
        case Reussite => Lue(f)
        case Levee(e) => Rejetee(Invalide(e))
  }

  /** A line gives a record exactly when it has four fields, the fourth reads
      as a number and the constructor's checks pass; the fields are taken in
      the order matricule, prenom, nom, moyenne. */
  lemma AnalyserLigneChamps(ligne: string, lireNombre: string -> Option<real>)
    ensures var mots := SeparerJava(ligne, Separateur);
            AnalyserLigne(ligne, lireNombre).Lue? <==>
              |mots| == NbChamps && lireNombre(mots[3]).Some?
              && FicheValide(Fiche(mots[0], mots[1], mots[2], lireNombre(mots[3]).value))
    ensures var mots := SeparerJava(ligne, Separateur);
            AnalyserLigne(ligne, lireNombre).Lue? ==>
              AnalyserLigne(ligne, lireNombre).fiche == Fiche(mots[0], mots[1], mots[2], lireNombre(mots[3]).value)
    ensures AnalyserLigne(ligne, lireNombre).Rejetee? && AnalyserLigne(ligne, lireNombre).cause.NombreDeChamps?
            <==> |SeparerJava(ligne, Separateur)| != NbChamps
    ensures AnalyserLigne(ligne, lireNombre).Lue? ==> FicheValide(AnalyserLigne(ligne, lireNombre).fiche)
  {
    var mots := SeparerJava(ligne, Separateur);
    if |mots| == NbChamps && lireNombre(mots[3]).Some? {
      VerifierChampsOrdre(Fiche(mots[0], mots[1], mots[2], lireNombre(mots[3]).value));
    }
  }

  /** The rendered line spelled out: the four fields with a ';' between each two. */
  lemma LigneDeChamps(f: Fiche, ecrireNombre: real -> string)
    ensures LigneDe(f, ecrireNombre)
            == f.matricule + [Separateur] + f.prenom + [Separateur] + f.nom + [Separateur] + ecrireNombre(f.moyenne)
  {
    var m, p, n, x := f.matricule, f.prenom, f.nom, ecrireNombre(f.moyenne);
    var mots := [m, p, n, x];
    var sep := [Separateur];
    assert mots[1..][1..][1..] == [x];
    assert mots[1..][1..] == [n, x];
    assert mots[1..] == [p, n, x];
    assert Joindre([n, x], Separateur) == n + sep + x;
    assert Joindre([p, n, x], Separateur) == p + sep + (n + sep + x);
    assert Joindre(mots, Separateur) == m + sep + (p + sep + (n + sep + x));
    assert m + sep + (p + sep + (n + sep + x)) == m + sep + p + sep + n + sep + x;
  }

  /** What a record needs for its line to read back as the same record: valid
      fields, no ';' in any of them, and a number text that reads back as the
      same moyenne. */
  predicate Relisible(f: Fiche, ecrireNombre: real -> string, lireNombre: string -> Option<real>)
  {
    && FicheValide(f)
    && Separateur !in f.matricule && Separateur !in f.prenom && Separateur !in f.nom
    && ecrireNombre(f.moyenne) != [] && Separateur !in ecrireNombre(f.moyenne)
    && lireNombre(ecrireNombre(f.moyenne)) == Some(f.moyenne)
  }

  /** Reading back the line written for a record gives the same four fields. */
  lemma AnalyserLigneDe(f: Fiche, ecrireNombre: real -> string, lireNombre: string -> Option<real>)
    requires Relisible(f, ecrireNombre, lireNombre)
    ensures AnalyserLigne(LigneDe(f, ecrireNombre), lireNombre) == Lue(f)
  {
    SeparerJoindre([f.matricule, f.prenom, f.nom, ecrireNombre(f.moyenne)], Separateur);
    VerifierChampsOrdre(f);
  }

  /** The other direction of the round trip: a line that reads as a record,
      written again, reads back as the same record, provided the number text
      written for its moyenne reads back. */
  lemma LueRelisible(ligne: string, f: Fiche, ecrireNombre: real -> string, lireNombre: string -> Option<real>)
    requires AnalyserLigne(ligne, lireNombre) == Lue(f)
    requires ecrireNombre(f.moyenne) != [] && Separateur !in ecrireNombre(f.moyenne)
    requires lireNombre(ecrireNombre(f.moyenne)) == Some(f.moyenne)
    ensures AnalyserLigne(LigneDe(f, ecrireNombre), lireNombre) == Lue(f)
  {
    AnalyserLigneChamps(ligne, lireNombre);
    var mots := SeparerJava(ligne, Separateur);
    assert Separateur in ligne;
    DecouperSansSeparateur(ligne, Separateur);
    assert Separateur !in mots[0] && Separateur !in mots[1] && Separateur !in mots[2];
    AnalyserLigneDe(f, ecrireNombre, lireNombre);
  }

  /** The raw fields of a written line: those of matricule, prenom and nom,
      then the number text. */
  lemma DecouperLigneDe(f: Fiche, ecrireNombre: real -> string)
    requires Separateur !in ecrireNombre(f.moyenne)
    ensures Decouper(LigneDe(f, ecrireNombre), Separateur)
            == Decouper(f.matricule, Separateur) + (Decouper(f.prenom, Separateur)
               + (Decouper(f.nom, Separateur) + [ecrireNombre(f.moyenne)]))
  {
    var m, p, n, x := f.matricule, f.prenom, f.nom, ecrireNombre(f.moyenne);
    var sep := [Separateur];
    LigneDeChamps(f, ecrireNombre);
    var r3 := n + sep + x;
    var r2 := p + sep + r3;
    assert LigneDe(f, ecrireNombre) == m + sep + r2;
    DecouperConcat(m, Separateur, r2);
    DecouperConcat(p, Separateur, r3);
    DecouperConcat(n, Separateur, x);
    DecouperSeul(x, Separateur);
  }

  /** The line written for a record with a ';' in its matricule, prenom or
      nom splits into five fields or more. */
  lemma SeparerLigneDe(f: Fiche, ecrireNombre: real -> string)
    requires Separateur in f.matricule || Separateur in f.prenom || Separateur in f.nom
    requires ecrireNombre(f.moyenne) != [] && Separateur !in ecrireNombre(f.moyenne)
    ensures |SeparerJava(LigneDe(f, ecrireNombre), Separateur)| >= NbChamps + 1
  {
    var m, p, n, x := f.matricule, f.prenom, f.nom, ecrireNombre(f.moyenne);
    var ligne := LigneDe(f, ecrireNombre);
    DecouperLigneDe(f, ecrireNombre);
    var d := Decouper(ligne, Separateur);
    if Separateur in m { DecouperPlusieurs(m, Separateur); }
    if Separateur in p { DecouperPlusieurs(p, Separateur); }
    if Separateur in n { DecouperPlusieurs(n, Separateur); }
    assert |d| >= NbChamps + 1;
    assert Separateur in ligne by {
      JoindreContientSeparateur([m, p, n, x], Separateur);
    }
    assert d[|d| - 1] == x;
  }

  /** Whatever record carries a ';' in matricule, prenom or nom, its written
      line is rejected on reading back for having more than four fields. */
  lemma PointVirguleIllisible(f: Fiche, ecrireNombre: real -> string, lireNombre: string -> Option<real>)
    requires Separateur in f.matricule || Separateur in f.prenom || Separateur in f.nom
    requires ecrireNombre(f.moyenne) != [] && Separateur !in ecrireNombre(f.moyenne)
    ensures AnalyserLigne(LigneDe(f, ecrireNombre), lireNombre).Rejetee?
    ensures AnalyserLigne(LigneDe(f, ecrireNombre), lireNombre).cause.NombreDeChamps?
    ensures AnalyserLigne(LigneDe(f, ecrireNombre), lireNombre).cause.trouves > NbChamps
  {
    SeparerLigneDe(f, ecrireNombre);
    AnalyserLigneChamps(LigneDe(f, ecrireNombre), lireNombre);
  }

  /** The setters accept a ';' inside a prenom, but the line written for such a
      record has five fields and does not read back. */
  lemma PointVirguleDansPrenom(texte: string, ecrireNombre: real -> string, lireNombre: string -> Option<real>)
    requires ecrireNombre(85.0) == texte && texte != [] && Separateur !in texte
    ensures FicheValide(Fiche("1234567", "Alice;Marie", "Dupont", 85.0))
    ensures AnalyserLigne(LigneDe(Fiche("1234567", "Alice;Marie", "Dupont", 85.0), ecrireNombre), lireNombre)
            == Rejetee(NombreDeChamps(5))
  {
    var quatre := ["1234567", "Alice;Marie", "Dupont", texte];
    var cinq := ["1234567", "Alice", "Marie", "Dupont", texte];
    assert Joindre(quatre, Separateur) == Joindre(cinq, Separateur) by {
      assert Joindre(quatre[1..], Separateur) == "Alice;Marie" + [Separateur] + Joindre(quatre[2..], Separateur);
      assert Joindre(cinq[1..], Separateur) == "Alice" + [Separateur] + Joindre(cinq[2..], Separateur);
      assert Joindre(cinq[2..], Separateur) == "Marie" + [Separateur] + Joindre(quatre[2..], Separateur) by {
        assert cinq[2..][1..] == quatre[2..];
      }
    }
    SeparerJoindre(cinq, Separateur);
  }

  /* ---------- Loading (lireEtudiants) ---------- */

  /** A data line that gave no record: its index in the file and the cause. */
  datatype Rejet = Rejet(ligne: nat, cause: Cause)

  datatype Chargement = Chargement(fiches: seq<Fiche>, rejets: seq<Rejet>)

  /** The line reader of lireEtudiants: AnalyserLigne with the given number reader. */
  function Lecteur(lireNombre: string -> Option<real>): string -> Analyse
  {
    ligne => AnalyserLigne(ligne, lireNombre)
  }

  /** Every line the reader accepts gives a valid record. */
  lemma LecteurValide(lireNombre: string -> Option<real>)
    ensures forall ligne :: Lecteur(lireNombre)(ligne).Lue? ==> FicheValide(Lecteur(lireNombre)(ligne).fiche)
  {
    forall ligne | Lecteur(lireNombre)(ligne).Lue?
      ensures FicheValide(Lecteur(lireNombre)(ligne).fiche)
    {
      AnalyserLigneChamps(ligne, lireNombre);
    }
  }

  /** lireEtudiants on the lines of the file, each data line read by
      `analyser` (Lecteur in the list): line 0 is the header and is not read;
      each later line gives a record or a rejection, in file order, and a
      rejected line does not stop the loading. */
  function Charger(lignes: seq<string>, analyser: string -> Analyse): Chargement
  {
    if |lignes| <= 1 then Chargement([], [])
    else Ajouter(Charger(lignes[..|lignes| - 1], analyser), |lignes| - 1, analyser(lignes[|lignes| - 1]))
  }

  /** The effect of line number `numero` on the load so far. */
  function Ajouter(c: Chargement, numero: nat, a: Analyse): Chargement
  {
    match a
    case Lue(f) => c.(fiches := c.fiches + [f])
    case Rejetee(cause) => c.(rejets := c.rejets + [Rejet(numero, cause)])
  }

  /** Every data line is accounted for once: it gave a record or it is
      reported, with the cause its reading gave, in increasing line order. */
  lemma {:induction false} ChargerBilan(lignes: seq<string>, analyser: string -> Analyse)
    ensures |lignes| >= 1 ==>
              |Charger(lignes, analyser).fiches| + |Charger(lignes, analyser).rejets| == |lignes| - 1
    ensures forall i :: 0 <= i < |Charger(lignes, analyser).rejets| ==>
              var r := Charger(lignes, analyser).rejets[i];
              1 <= r.ligne < |lignes| && analyser(lignes[r.ligne]) == Rejetee(r.cause)
    ensures forall i, j :: 0 <= i < j < |Charger(lignes, analyser).rejets| ==>
              Charger(lignes, analyser).rejets[i].ligne < Charger(lignes, analyser).rejets[j].ligne
  {
    if |lignes| > 1 {
      var init := lignes[..|lignes| - 1];
      ChargerBilan(init, analyser);
      forall i | 0 <= i < |init| ensures lignes[i] == init[i] { }
    }
  }

  /** When every record the reader gives is valid, so is every record loaded. */
  lemma {:induction false} ChargerValides(lignes: seq<string>, analyser: string -> Analyse)
    requires forall ligne :: analyser(ligne).Lue? ==> FicheValide(analyser(ligne).fiche)
    ensures forall i :: 0 <= i < |Charger(lignes, analyser).fiches| ==> FicheValide(Charger(lignes, analyser).fiches[i])
  {
    if |lignes| > 1 {
      ChargerValides(lignes[..|lignes| - 1], analyser);
    }
  }

  /** The header line is never read: any header gives the same load. */
  lemma {:induction false} ChargerIgnoreEntete(h1: string, h2: string, donnees: seq<string>,
                                               analyser: string -> Analyse)
    ensures Charger([h1] + donnees, analyser) == Charger([h2] + donnees, analyser)
  {
    if donnees != [] {
      var init := donnees[..|donnees| - 1];
      ChargerIgnoreEntete(h1, h2, init, analyser);
      assert ([h1] + donnees)[..|donnees|] == [h1] + init;
      assert ([h2] + donnees)[..|donnees|] == [h2] + init;
    }
  }

  /** A rejected line changes nothing in the records loaded from the other lines. */
  lemma {:induction false} ChargerRejetSansEffet(avant: seq<string>, mauvaise: string, apres: seq<string>,
                                                 analyser: string -> Analyse)
    requires |avant| >= 1
    requires analyser(mauvaise).Rejetee?
    ensures Charger(avant + [mauvaise] + apres, analyser).fiches == Charger(avant + apres, analyser).fiches
  {
    var avec, sans := avant + [mauvaise] + apres, avant + apres;
    if apres == [] {
      assert avec[..|avant|] == avant;
      assert avec[|avant|] == mauvaise;
      assert sans == avant;
    } else {
      var init := apres[..|apres| - 1];
      ChargerRejetSansEffet(avant, mauvaise, init, analyser);
      assert avec[..|avec| - 1] == avant + [mauvaise] + init;
      assert sans[..|sans| - 1] == avant + init;
      assert avec[|avec| - 1] == sans[|sans| - 1];
    }
  }

  /** The load given by the readings of the data lines, in file order; the
      k-th reading is that of line k + 1. */
  function Bilan(analyses: seq<Analyse>): Chargement
  {
    if analyses == [] then Chargement([], [])
    else Ajouter(Bilan(analyses[..|analyses| - 1]), |analyses|, analyses[|analyses| - 1])
  }

  /** Loading the lines is folding the readings of the lines after the header. */
  lemma {:induction false} ChargerLectures(lignes: seq<string>, analyser: string -> Analyse, analyses: seq<Analyse>)
    requires |lignes| >= 1 && |analyses| == |lignes| - 1
    requires forall k :: 0 <= k < |analyses| ==> analyses[k] == analyser(lignes[k + 1])
    ensures Charger(lignes, analyser) == Bilan(analyses)
  {
    if |lignes| > 1 {
      ChargerLectures(lignes[..|lignes| - 1], analyser, analyses[..|analyses| - 1]);
    }
  }

  /** Data lines that each read as a record load as those records, in order. */
  lemma {:induction false} ChargerLues(entete: string, lignes: seq<string>, fs: seq<Fiche>,
                                       analyser: string -> Analyse)
    requires |lignes| == |fs|
    requires forall i :: 0 <= i < |fs| ==> analyser(lignes[i]) == Lue(fs[i])
    ensures Charger([entete] + lignes, analyser) == Chargement(fs, [])
  {
    if fs != [] {
      var n := |fs| - 1;
      var tout := [entete] + lignes;
      ChargerLues(entete, lignes[..n], fs[..n], analyser);
      assert tout[..|tout| - 1] == [entete] + lignes[..n];
      assert tout[|tout| - 1] == lignes[n];
      assert fs == fs[..n] + [fs[n]];
    }
  }

  /* ---------- Writing (ecrireEtudiants) ---------- */

  /** The data lines written for the records, one per record, in list order;
      no header line is written. */
  function Ecrire(fs: seq<Fiche>, ecrireNombre: real -> string): seq<string>
  {
    seq(|fs|, i requires 0 <= i < |fs| => LigneDe(fs[i], ecrireNombre))
  }

  /** Reading back, after a header, the lines written for the records gives
      the same records and no rejection. */
  lemma ChargerEcrire(entete: string, fs: seq<Fiche>,
                      ecrireNombre: real -> string, lireNombre: string -> Option<real>)
    requires forall i :: 0 <= i < |fs| ==> Relisible(fs[i], ecrireNombre, lireNombre)
    ensures Charger([entete] + Ecrire(fs, ecrireNombre), Lecteur(lireNombre)) == Chargement(fs, [])
  {
    var lignes := Ecrire(fs, ecrireNombre);
    forall i | 0 <= i < |fs|
      ensures Lecteur(lireNombre)(lignes[i]) == Lue(fs[i])
    {
      AnalyserLigneDe(fs[i], ecrireNombre, lireNombre);
    }
    ChargerLues(entete, lignes, fs, Lecteur(lireNombre));
  }

  /** Since the writer emits no header and the reader skips one, reading the
      written lines straight back loses the first record. */
  lemma ChargerEcrireSansEntete(fs: seq<Fiche>, ecrireNombre: real -> string, lireNombre: string -> Option<real>)
    requires fs != []
    requires forall i :: 0 <= i < |fs| ==> Relisible(fs[i], ecrireNombre, lireNombre)
    ensures Charger(Ecrire(fs, ecrireNombre), Lecteur(lireNombre)) == Chargement(fs[1..], [])
  {
    ChargerEcrire(LigneDe(fs[0], ecrireNombre), fs[1..], ecrireNombre, lireNombre);
    assert Ecrire(fs, ecrireNombre) == [LigneDe(fs[0], ecrireNombre)] + Ecrire(fs[1..], ecrireNombre);
  }

  /* ---------- The bonus (bonifierNotes) ---------- */

  /** Clamps a moyenne into [MIN_MOYENNE, MAX_MOYENNE]. */
  function Borner(x: real): (r: real)
    ensures ValiderMoyenne(r)
    ensures ValiderMoyenne(x) ==> r == x
    ensures x < MinMoyenne ==> r == MinMoyenne
    ensures x > MaxMoyenne ==> r == MaxMoyenne
  {
    if x < MinMoyenne then MinMoyenne else if x > MaxMoyenne then MaxMoyenne else x
  }

  /** One record after the bonus: moyenne + points, clamped; nothing else changes. */
  function BonifierFiche(f: Fiche, points: int): Fiche
  {
    f.(moyenne := Borner(f.moyenne + points as real))
  }

  function Bonifier(fs: seq<Fiche>, points: int): seq<Fiche>
  {
    seq(|fs|, i requires 0 <= i < |fs| => BonifierFiche(fs[i], points))
  }

  /** The bonus keeps every moyenne within bounds, keeps the length, the order
      and the other three fields, keeps every record valid, and changes no
      comparison between records. */
  lemma BonifierBornes(fs: seq<Fiche>, points: int)
    ensures |Bonifier(fs, points)| == |fs|
    ensures forall i :: 0 <= i < |fs| ==>
              && ValiderMoyenne(Bonifier(fs, points)[i].moyenne)
              && Bonifier(fs, points)[i].matricule == fs[i].matricule
              && Bonifier(fs, points)[i].prenom == fs[i].prenom
              && Bonifier(fs, points)[i].nom == fs[i].nom
    ensures forall i :: 0 <= i < |fs| && FicheValide(fs[i]) ==> FicheValide(Bonifier(fs, points)[i])
    ensures forall i, j :: 0 <= i < |fs| && 0 <= j < |fs| ==>
              Comparer(Bonifier(fs, points)[i], Bonifier(fs, points)[j]) == Comparer(fs[i], fs[j])
  {
  }

  /** A bonus that stays within bounds is added exactly; one that would leave
      them stops at the bound (95 + 10 gives 100, 5 - 10 gives 0). */
  lemma BonifierExemples(f: Fiche, points: int)
    ensures MinMoyenne <= f.moyenne + points as real <= MaxMoyenne ==>
              BonifierFiche(f, points).moyenne == f.moyenne + points as real
    ensures BonifierFiche(f.(moyenne := 95.0), 10).moyenne == 100.0
    ensures BonifierFiche(f.(moyenne := 5.0), -10).moyenne == 0.0
  {
  }

  /* ---------- toString ---------- */

  /** The text of toString: each record's text followed by a line break, in
      list order. The list's toString uses Etudiant.toString as texte. */
  function TexteListe(fs: seq<Fiche>, texte: Fiche -> string): string
  {
    if fs == [] then []
    else TexteListe(fs[..|fs| - 1], texte) + texte(fs[|fs| - 1]) + "\n"
  }

  /** The text of a list is the text of its first part followed by that of the rest. */
  lemma {:induction false} TexteListeConcat(a: seq<Fiche>, b: seq<Fiche>, texte: Fiche -> string)
    ensures TexteListe(a + b, texte) == TexteListe(a, texte) + TexteListe(b, texte)
  {
    if b == [] {
      assert a + b == a;
    } else {
      var init, x := b[..|b| - 1], b[|b| - 1];
      TexteListeConcat(a, init, texte);
      SansDernier(a, b);
      Associer(TexteListe(a, texte), TexteListe(init, texte), texte(x) + "\n");
    }
  }

  /** Dropping the last element of a + b drops it from b. */
  lemma SansDernier<T>(a: seq<T>, b: seq<T>)
    requires b != []
    ensures (a + b)[..|a + b| - 1] == a + b[..|b| - 1]
    ensures (a + b)[|a + b| - 1] == b[|b| - 1]
  {
  }

  lemma Associer<T>(x: seq<T>, y: seq<T>, z: seq<T>)
    ensures x + (y + z) == (x + y) + z
  {
  }

  /* ---------- The list object ---------- */

  /** The records of a sequence of objects, as values. */
  function Fiches(s: seq<Etudiant>): seq<Fiche>
    reads s
  {
    seq(|s|, i requires 0 <= i < |s| reads s => s[i].Valeur())
  }

  lemma FichesConcat(a: seq<Etudiant>, b: seq<Etudiant>)
    ensures Fiches(a + b) == Fiches(a) + Fiches(b)
  {
    assert |Fiches(a + b)| == |Fiches(a) + Fiches(b)|;
    forall i | 0 <= i < |a + b|
      ensures Fiches(a + b)[i] == (Fiches(a) + Fiches(b))[i]
    {
    }
  }

  /** No object occurs twice. */
  predicate Distincts<T(==)>(s: seq<T>)
  {
    forall i, j :: 0 <= i < j < |s| ==> s[i] != s[j]
  }

  lemma {:induction false} DistinctsAuPlusUne<T>(s: seq<T>, x: T)
    requires Distincts(s)
    ensures multiset(s)[x] <= 1
  {
    if s != [] {
      var init, last := s[..|s| - 1], s[|s| - 1];
      DistinctsAuPlusUne(init, x);
      assert s == init + [last];
      if x == last {
        assert x !in init;
      }
    }
  }

  lemma DeuxOccurrences<T>(s: seq<T>, i: nat, j: nat)
    requires i < j < |s| && s[i] == s[j]
    ensures multiset(s)[s[i]] >= 2
  {
    assert s == s[..j] + s[j..];
    assert s[..j][i] == s[i];
    assert s[j..][0] == s[j];
    assert multiset(s[..j])[s[i]] >= 1;
    assert multiset(s[j..])[s[i]] >= 1;
  }

  /** A permutation of a sequence without repetition has none either. */
  lemma DistinctsPermutation<T>(a: seq<T>, b: seq<T>)
    requires Distincts(a) && multiset(a) == multiset(b)
    ensures Distincts(b)
  {
    forall i, j | 0 <= i < j < |b|
      ensures b[i] != b[j]
    {
      if b[i] == b[j] {
        DeuxOccurrences(b, i, j);
        DistinctsAuPlusUne(a, b[i]);
      }
    }
  }

  /** Placing v at index j > 0 keeps the first element in front. */
  lemma CoupeTete<T>(s: seq<T>, v: T, j: nat)
    requires 0 < j <= |s|
    ensures s[..j] + [v] + s[j..] == [s[0]] + (s[1..][..j - 1] + [v] + s[1..][j - 1..])
  {
    assert s[..j] == [s[0]] + s[1..][..j - 1];
    assert s[j..] == s[1..][j - 1..];
  }

  /** Where Inserer puts x: after a prefix of records that do not come
      strictly after x, before the first one that does. */
  lemma {:induction false} InsererCoupe(s: seq<Fiche>, v: Fiche, j: nat)
    requires j <= |s|
    requires forall k :: 0 <= k < j ==> Comparer(s[k], v) <= 0
    requires j < |s| ==> Comparer(s[j], v) > 0
    ensures Inserer(s, v) == s[..j] + [v] + s[j..]
  {
    if j == 0 {
      assert s[..j] == [] && s[j..] == s;
    } else {
      var r := s[1..];
      assert forall k :: 0 <= k < j - 1 ==> r[k] == s[k + 1];
      InsererCoupe(r, v, j - 1);
      assert Comparer(s[0], v) <= 0;
      CoupeTete(s, v, j);
    }
  }

  /** Inserts x into t after every object that does not come strictly after it
      (the step of the stable sort used by trier). */
  method InsererEtudiant(t: seq<Etudiant>, x: Etudiant) returns (u: seq<Etudiant>)
    ensures multiset(u) == multiset(t) + multiset{x}
    ensures Fiches(u) == Inserer(Fiches(t), x.Valeur())
  {
    var j := 0;
    while j < |t| && t[j].CompareTo(x) <= 0
      invariant 0 <= j <= |t|
      invariant forall k :: 0 <= k < j ==> Comparer(t[k].Valeur(), x.Valeur()) <= 0
    {
      j := j + 1;
    }
    u := t[..j] + [x] + t[j..];
    assert t == t[..j] + t[j..];
    InsererCoupe(Fiches(t), x.Valeur(), j);
    FichesInsertion(t, x, j);
  }

  /** The records of t with x placed at index j. */
  lemma FichesInsertion(t: seq<Etudiant>, x: Etudiant, j: nat)
    requires j <= |t|
    ensures Fiches(t[..j] + [x] + t[j..]) == Fiches(t)[..j] + [x.Valeur()] + Fiches(t)[j..]
  {
    var u, v := Fiches(t[..j] + [x] + t[j..]), Fiches(t)[..j] + [x.Valeur()] + Fiches(t)[j..];
    assert |u| == |v|;
    forall i | 0 <= i < |u|
      ensures u[i] == v[i]
    {
      if i < j {
      } else if i == j {
      } else {
        assert u[i] == t[i - 1].Valeur();
      }
    }
  }

  /** List.sort(null) on a sequence of objects: each object in turn is
      inserted after those that do not come strictly after it. */
  method TrierEtudiants(source: seq<Etudiant>) returns (trie: seq<Etudiant>)
    ensures multiset(trie) == multiset(source)
    ensures Fiches(trie) == TriStable(Fiches(source))
  {
    ghost var avant := Fiches(source);
    trie := [];
    for i := 0 to |source|
      invariant multiset(trie) == multiset(source[..i])
      invariant Fiches(trie) == TriStable(avant[..i])
    {
      trie := InsererEtudiant(trie, source[i]);
      assert source[..i + 1] == source[..i] + [source[i]];
      TriStablePas(avant, i);
    }
    assert source[..|source|] == source;
    assert avant[..|avant|] == avant;
  }

  /** Sorting one more record inserts it into the sorted records before it. */
  lemma TriStablePas(s: seq<Fiche>, i: nat)
    requires i < |s|
    ensures TriStable(s[..i + 1]) == Inserer(TriStable(s[..i]), s[i])
  {
    assert s[..i + 1][..i] == s[..i];
  }

  /** Every object of s is valid. */
  ghost predicate TousValides(s: seq<Etudiant>)
    reads s
  {
    forall i :: 0 <= i < |s| ==> s[i].Valid()
  }

  /** Appending a valid object that is not yet in the list keeps every object
      valid and none repeated. */
  lemma AjouterValides(s: seq<Etudiant>, e: Etudiant)
    requires TousValides(s) && Distincts(s) && e.Valid() && e !in s
    ensures TousValides(s + [e]) && Distincts(s + [e])
  {
  }

  /** A permutation of a list of distinct valid objects is one too. */
  lemma PermutationValides(a: seq<Etudiant>, b: seq<Etudiant>)
    requires TousValides(a) && Distincts(a) && multiset(a) == multiset(b)
    ensures TousValides(b) && Distincts(b)
  {
    DistinctsPermutation(a, b);
    forall k | 0 <= k < |b|
      ensures b[k].Valid()
    {
      assert b[k] in multiset(a);
    }
  }

  /** What one data line gives when read: a new object or the cause of its rejection. */
  datatype Lecture = Creee(etudiant: Etudiant) | Refusee(cause: Cause)

  /** The body of lireEtudiants' loop for one line: split it on ';', read the
      moyenne, and construct the Etudiant, whose setters check the fields. */
  method LireLigne(ligne: string, lireNombre: string -> Option<real>) returns (r: Lecture)
    ensures r.Creee? <==> AnalyserLigne(ligne, lireNombre).Lue?
    ensures r.Creee? ==> fresh(r.etudiant) && r.etudiant.Valid()
                         && r.etudiant.Valeur() == AnalyserLigne(ligne, lireNombre).fiche
    ensures r.Refusee? ==> AnalyserLigne(ligne, lireNombre) == Rejetee(r.cause)
  {
    var mots := SeparerJava(ligne, Separateur);
    if |mots| != NbChamps {
      return Refusee(NombreDeChamps(|mots|));
    }
    match lireNombre(mots[3])
    case None =>
      return Refusee(MoyenneIllisible);
    case Some(moyenne) =>
      VerifierChampsOrdre(Fiche(mots[0], mots[1], mots[2], moyenne));
      var c := Etudiant.Nouveau(mots[0], mots[1], mots[2], moyenne);
      match c
      case Ok(e) =>
        return Creee(e);
      case Echec(erreur) =>
        return Refusee(Invalide(erreur));
  }

  /** One pass of lireEtudiants' loop: reads line number `numero` and adds the
      new object to the records read so far, or the rejection to the rejections. */
  method LireSuivante(ligne: string, numero: nat, lireNombre: string -> Option<real>,
                      lus: seq<Etudiant>, rejets: seq<Rejet>)
    returns (lus2: seq<Etudiant>, rejets2: seq<Rejet>, ghost a: Analyse)
    requires TousValides(lus) && Distincts(lus)
    ensures TousValides(lus2) && Distincts(lus2)
    ensures forall k :: 0 <= k < |lus2| ==> lus2[k] in lus || fresh(lus2[k])
    ensures a == Lecteur(lireNombre)(ligne)
    ensures Chargement(Fiches(lus2), rejets2) == Ajouter(Chargement(Fiches(lus), rejets), numero, a)
  {
    var lecture := LireLigne(ligne, lireNombre);
    match lecture {
      case Creee(e) =>
        a := Lue(e.Valeur());
        assert e !in lus;
        AjouterValides(lus, e);
        FichesConcat(lus, [e]);
        lus2, rejets2 := lus + [e], rejets;
      case Refusee(cause) =>
        a := Rejetee(cause);
        lus2, rejets2 := lus, rejets + [Rejet(numero, cause)];
    }
  }

  /** The loop of lireEtudiants: skips the header, then reads each data line
      in turn, keeping the new object or the rejection. */
  method LireLignes(lignes: seq<string>, lireNombre: string -> Option<real>)
    returns (lus: seq<Etudiant>, rejets: seq<Rejet>)
    ensures TousValides(lus) && Distincts(lus)
    ensures forall k :: 0 <= k < |lus| ==> fresh(lus[k])
    ensures Chargement(Fiches(lus), rejets) == Charger(lignes, Lecteur(lireNombre))
  {
    lus, rejets := [], [];
    if |lignes| == 0 {
      return;
    }
    var i := 1;
    ghost var analyses: seq<Analyse> := [];
    while i < |lignes|
      invariant 1 <= i <= |lignes|
      invariant TousValides(lus) && Distincts(lus)
      invariant forall k :: 0 <= k < |lus| ==> fresh(lus[k])
      invariant |analyses| == i - 1
      invariant forall k :: 0 <= k < |analyses| ==> analyses[k] == Lecteur(lireNombre)(lignes[k + 1])
      invariant Bilan(analyses) == Chargement(Fiches(lus), rejets)
    {
      ghost var a;
      ghost var avant := analyses;
      lus, rejets, a := LireSuivante(lignes[i], i, lireNombre, lus, rejets);
      analyses := analyses + [a];
      assert analyses[..|analyses| - 1] == avant;
      i := i + 1;
    }
    ChargerLectures(lignes, Lecteur(lireNombre), analyses);
  }

  class ListeEtudiants {
    var etudiants: seq<Etudiant>

    /** Every record is valid and no object is in the list twice (each line
        read creates its own object). */
    ghost predicate Valid()
      reads this, etudiants
    {
      TousValides(etudiants) && Distincts(etudiants)
    }

    /** The records of the list, in list order. */
    function Contenu(): seq<Fiche>
      reads this, etudiants
    {
      Fiches(etudiants)
    }

    /** A new list is empty. */
    constructor ()
      ensures Valid() && etudiants == []
    {
      etudiants := [];
    }

    /** lireEtudiants on the lines of the file: the previous contents are
        dropped, the header is skipped, and each later line adds a new record
        or is reported as rejected. */
    method LireEtudiants(lignes: seq<string>, lireNombre: string -> Option<real>) returns (rejets: seq<Rejet>)
      modifies this
      ensures Valid()
      ensures forall i :: 0 <= i < |etudiants| ==> fresh(etudiants[i])
      ensures Contenu() == Charger(lignes, Lecteur(lireNombre)).fiches
      ensures rejets == Charger(lignes, Lecteur(lireNombre)).rejets
    {
      etudiants := [];
      var lus;
      lus, rejets := LireLignes(lignes, lireNombre);
      etudiants := lus;
    }

    /** The data lines of ecrireEtudiants, one per record, in list order. */
    method EcrireEtudiants(ecrireNombre: real -> string) returns (lignes: seq<string>)
      ensures lignes == Ecrire(Contenu(), ecrireNombre)
    {
      lignes := [];
      for i := 0 to |etudiants|
        invariant lignes == Ecrire(Contenu()[..i], ecrireNombre)
      {
        var e := etudiants[i];
        var ligne := e.GetMatricule() + [Separateur] + e.GetPrenom() + [Separateur]
                     + e.GetNom() + [Separateur] + ecrireNombre(e.GetMoyenne());
        LigneDeChamps(e.Valeur(), ecrireNombre);
        assert Contenu()[..i + 1] == Contenu()[..i] + [e.Valeur()];
        lignes := lignes + [ligne];
      }
      assert Contenu()[..|etudiants|] == Contenu();
    }

    /** bonifierNotes: every moyenne becomes moyenne + points clamped into
        [0, 100]; the list and every other field are unchanged. */
    method BonifierNotes(noteAAjouter: int)
      requires Valid()
      modifies etudiants
      ensures Valid() && etudiants == old(etudiants)
      ensures Contenu() == Bonifier(old(Contenu()), noteAAjouter)
    {
      ghost var avant := Contenu();
      var i := 0;
      while i < |etudiants|
        invariant 0 <= i <= |etudiants|
        invariant Valid()
        invariant forall k :: 0 <= k < i ==> etudiants[k].Valeur() == BonifierFiche(avant[k], noteAAjouter)
        invariant forall k :: i <= k < |etudiants| ==> etudiants[k].Valeur() == avant[k]
      {
        var e := etudiants[i];
        var issue := e.SetMoyenne(Borner(e.GetMoyenne() + noteAAjouter as real));
        assert issue == Reussite;
        i := i + 1;
      }
    }

    /** trier: a stable sort of the list in the natural order. The same objects
        are kept, none of their fields changes, and the records end up sorted,
        with records that tie in their former relative order. */
    method Trier()
      requires Valid()
      modifies this
      ensures Valid()
      ensures multiset(etudiants) == multiset(old(etudiants))
      ensures Contenu() == TriStable(old(Contenu()))
      ensures Triee(Contenu())
    {
      ghost var avant := Contenu();
      var trie := TrierEtudiants(etudiants);
      PermutationValides(etudiants, trie);
      TriStableTriee(avant);
      etudiants := trie;
    }

    /** toString: the text of each record followed by a line break, in list order. */
    method ToString(ecrireNombre: real -> string) returns (s: string)
      ensures s == TexteListe(Contenu(), f => Decrire(f, ecrireNombre))
    {
      s := [];
      for i := 0 to |etudiants|
        invariant s == TexteListe(Contenu()[..i], f => Decrire(f, ecrireNombre))
      {
        var e := etudiants[i];
        assert Contenu()[..i + 1][..i] == Contenu()[..i];
        s := s + Decrire(e.Valeur(), ecrireNombre) + "\n";
      }
      assert Contenu()[..|etudiants|] == Contenu();
    }
  }
}
