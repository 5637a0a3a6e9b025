# Student records: a verified model of `Etudiant` and `ListeEtudiants`

This project models the student-record layer of the `LireEtudiants` exercise in Dafny and proves properties of it.

`Etudiant` is a record with four private fields: matricule, prenom, nom and moyenne. Every setter checks its argument before it assigns it. The constructor is the four setters called in order. The natural order is prenom first, then nom. Identity (`equals`, `hashCode`) depends on the matricule alone.

`ListeEtudiants` holds an ordered list of `Etudiant` objects. It can:
- load the list from the lines of a `matricule;prenom;nom;moyenne` file whose first line is a header;
- write one data line per record;
- add a clamped bonus to every moyenne;
- sort the list stably in the natural order;
- render the list as text.

Modules, one file each:

- `chaines.dfy` (`Chaines`): the parts of `java.lang.String` and `java.util.Objects` the record relies on.
  - `String.compareTo`, with its laws: antisymmetry, zero iff equal, transitivity.
  - `String.split` on a one-character separator, including Java's removal of trailing empty fields. It is proved to undo `Joindre`, the join with the separator.
  - `String.hashCode` and `Objects.hash`, with explicit 32-bit wrap-around.
- `etudiant.dfy` (`Etudiants`):
  - the constants and the validators;
  - `Fiche`, the value view of a record;
  - `Comparer`, which is compareTo on values, with its laws;
  - the `Etudiant` class. Its fields are updated in place by the setters. Each setter returns an `Issue`: `Reussite`, or `Levee(ArgumentInvalide(champ))` in place of the `IllegalArgumentException`. The Java constructor, which may throw, is the static method `Etudiant.Nouveau`, which returns a `Resultat`.
- `tri.dfy` (`Tri`): the contract of `List.sort(null)`. It is a stable insertion sort on values, proved to give a sorted permutation of its input that keeps the relative order of records that tie.
- `liste.dfy` (`Listes`): the line format and its round trip, the loading specification `Charger`, the bonus and the text rendering. The `ListeEtudiants` class has a `seq<Etudiant>` field; its methods reassign that field or update the objects in it.

The file is given as a sequence of lines. The load `Charger` is stated for any line reader. The list uses `Lecteur(lireNombre)`, which is `AnalyserLigne` with the given number reader. Writing returns a sequence of lines. `Double.parseDouble` and `Double.toString` are the parameters `lireNombre: string -> Option<real>` and `ecrireNombre: real -> string`. The round-trip lemmas (`AnalyserLigneDe`, `ChargerEcrire`) assume, through the predicate `Relisible`, that the record is valid, that its matricule, prenom and nom contain no `;`, that the number text `ecrireNombre` writes is non-empty and contains no `;`, and that `lireNombre` reads that text back as the same moyenne. The reverse round trip `LueRelisible` (a line that reads as a record, written again, reads back as the same record) needs only the conditions on the number text; the other conditions already hold for any record read from a line.

Several bodies in the source are unfinished TODO stubs. The model follows their doc comments and the JUnit assertions, not the stub bodies:

- `compareTo` (`LireEtudiants/src/Etudiant.java:170-173`) returns 0. The model orders by prenom, then nom, as its doc comment says and as the assertions of `tests/EtudiantTest.java:7-20` require. The comment on line 18 of the test reverses the order; the assertion on line 19 is followed.
- `equals` (`LireEtudiants/src/Etudiant.java:183-186`) returns false. The model compares matricules, as documented and as `tests/EtudiantTest.java:22-39` asserts.
- `bonifierNotes` (`LireEtudiants/src/ListeEtudiants.java:86-88`) is empty. The model adds the points and clamps into [0, 100] before assigning, so the setter's check always passes.
- The body of the reading loop (`LireEtudiants/src/ListeEtudiants.java:42-51`) is missing. The model splits the line with `String.split(";")` and requires exactly four fields. It reads the fourth field as a number and then constructs the `Etudiant`. The source does not say what happens to a line that fails. The model skips it, goes on with the next line, and reports it as a `Rejet` (line index and cause). A literal Java completion with no try/catch would instead let the exception escape and end the whole load.
- The writing loop (`LireEtudiants/src/ListeEtudiants.java:67-72`) prints only `matricule;prenom`, with no line break. The model writes the documented `matricule;prenom;nom;moyenne` line for each record.

Consequences the lemmas make explicit:
- The writer emits no header, but the reader always skips its first line. Reading the written lines straight back therefore loses the first record (`ChargerEcrireSansEntete`). Reading them back after a header gives every record and no rejection (`ChargerEcrire`).
- A `;` accepted by `setPrenom` makes the written line split into five fields, so that line is rejected when read back. `PointVirguleIllisible` proves this for every record with a `;` in its matricule, prenom or nom: the line splits into more than four fields and is rejected as `NombreDeChamps`. `PointVirguleDansPrenom` shows one such record that the setters accept.

## Model

| member | source | states |
|---|---|---|
| Chaines.ComparerChaines | LireEtudiants/src/Etudiant.java:163-173 | defines `String.compareTo`: the difference of the first differing characters, or else the difference of the lengths |
| Chaines.ComparerChainesAntisymetrique | LireEtudiants/src/Etudiant.java:163-173 | String comparison with the arguments swapped is exactly the negation |
| Chaines.ComparerChainesNulSsiEgales | LireEtudiants/src/Etudiant.java:163-173 | String comparison is zero exactly when the strings are equal |
| Chaines.ComparerChainesTransitive | LireEtudiants/src/Etudiant.java:163-173 | "strictly before" on strings is transitive |
| Chaines.ComparerChainesTransitiveLarge | LireEtudiants/src/Etudiant.java:163-173 | "before or equal" on strings is transitive |
| Chaines.PrefixeAvant | LireEtudiants/src/Etudiant.java:163-173 | a proper prefix comes strictly before the longer string |
| Chaines.Decouper | LireEtudiants/src/ListeEtudiants.java:43 | splitting yields at least one field |
| Chaines.RetirerVidesFinaux | LireEtudiants/src/ListeEtudiants.java:43 | the fields kept are a prefix of the fields, every field dropped is empty, and the last one kept is not empty |
| Chaines.SeparerJava | LireEtudiants/src/ListeEtudiants.java:43 | defines `String.split` on one character: the whole string when the separator is absent, otherwise the raw fields with the trailing empty ones removed |
| Chaines.DecouperSansSeparateur | LireEtudiants/src/ListeEtudiants.java:43 | no field produced by the split contains the separator |
| Chaines.JoindreDecouper | LireEtudiants/src/ListeEtudiants.java:43 | joining the split fields with the separator gives back the line |
| Chaines.DecouperChamp | LireEtudiants/src/ListeEtudiants.java:43 | a separator-free field followed by the separator splits off as exactly one field |
| Chaines.DecouperSeul | LireEtudiants/src/ListeEtudiants.java:43 | a string without the separator is a single field |
| Chaines.DecouperJoindre | LireEtudiants/src/ListeEtudiants.java:43 | splitting the join of separator-free fields gives back those fields |
| Chaines.DecouperConcat | LireEtudiants/src/ListeEtudiants.java:43 | a separator splits a string into the fields of the part before it followed by the fields of the part after it |
| Chaines.DecouperPlusieurs | LireEtudiants/src/ListeEtudiants.java:43 | a string containing the separator splits into at least two fields |
| Chaines.JoindreContientSeparateur | LireEtudiants/src/ListeEtudiants.java:43 | the join of two or more fields contains the separator |
| Chaines.SeparerJoindre | LireEtudiants/src/ListeEtudiants.java:43 | String.split undoes the join of two or more separator-free fields whose last field is non-empty |
| Chaines.Int32 | LireEtudiants/src/Etudiant.java:195 | the result is a signed 32-bit value congruent to the input modulo 2^32, and in-range inputs are unchanged |
| Chaines.HachageChaine | LireEtudiants/src/Etudiant.java:195 | defines `String.hashCode`: h = 31 * h + character over the string, wrapped to 32 bits at each step |
| Chaines.HachageObjets | LireEtudiants/src/Etudiant.java:195 | defines `Objects.hash` of one string: 31 + its hash code, wrapped to 32 bits |
| Etudiants.ValiderMatricule | LireEtudiants/src/Etudiant.java:136-138 | defines the matricule check: exactly 7 characters |
| Etudiants.ValiderNom | LireEtudiants/src/Etudiant.java:95-113 | defines the prenom and nom check of `setPrenom` and `setNom`: not empty |
| Etudiants.ValiderMoyenne | LireEtudiants/src/Etudiant.java:146-148 | defines the moyenne check: between 0 and 100, both included |
| Etudiants.VerifierChamps | LireEtudiants/src/Etudiant.java:29-34 | defines the constructor's checks in setter order: the first failing one gives `Levee` with its field, otherwise `Reussite` |
| Etudiants.VerifierChampsOrdre | LireEtudiants/src/Etudiant.java:29-34 | construction succeeds iff all four fields are valid; on failure it names the first invalid field in the order matricule, prenom, nom, moyenne |
| Etudiants.Comparer | LireEtudiants/src/Etudiant.java:163-173 | defines compareTo on records: the comparison of the prenoms, or of the noms when the prenoms are equal |
| Etudiants.Decrire | LireEtudiants/src/Etudiant.java:155-161 | defines `toString`: "Matricule: ", ", Prenom: ", ", Nom: " and ", Moyenne: " each followed by its field |
| Etudiants.ComparerAntisymetrique | LireEtudiants/src/Etudiant.java:163-173 | comparing two records in the other order negates the result |
| Etudiants.ComparerNulSsiMemeNom | LireEtudiants/src/Etudiant.java:163-173 | two records compare as 0 iff prenom and nom are both equal |
| Etudiants.ComparerTransitif | LireEtudiants/src/Etudiant.java:163-173 | "before or tie" is transitive, so the natural order is a total preorder |
| Etudiants.ExemplesCompareTo | LireEtudiants/src/tests/EtudiantTest.java:7-20 | Alice < Bob, Bob > Alice, Alice Dupont < Alice Durand |
| Etudiants.Etudiant.constructor | LireEtudiants/src/Etudiant.java:10-13 | the object before any setter has empty strings and moyenne 0 |
| Etudiants.Etudiant.Nouveau | LireEtudiants/src/Etudiant.java:29-34 | an object is returned iff all four fields are valid; it is fresh, valid and holds exactly the arguments; otherwise the error is the first failing check |
| Etudiants.Etudiant.GetMatricule | LireEtudiants/src/Etudiant.java:43-45 | on a valid object the matricule has 7 characters |
| Etudiants.Etudiant.GetPrenom | LireEtudiants/src/Etudiant.java:52-54 | on a valid object the prenom is non-empty |
| Etudiants.Etudiant.GetNom | LireEtudiants/src/Etudiant.java:61-63 | on a valid object the nom is non-empty |
| Etudiants.Etudiant.GetMoyenne | LireEtudiants/src/Etudiant.java:70-72 | on a valid object the moyenne is within [0, 100] |
| Etudiants.Etudiant.SetMatricule | LireEtudiants/src/Etudiant.java:82-87 | succeeds iff the length is 7 (no digit check); on success only matricule changes; on failure nothing changes; validity is preserved |
| Etudiants.Etudiant.SetPrenom | LireEtudiants/src/Etudiant.java:95-100 | succeeds iff non-empty (any characters, `;` included); only prenom changes, and only on success; validity is preserved |
| Etudiants.Etudiant.SetNom | LireEtudiants/src/Etudiant.java:108-113 | succeeds iff non-empty; only nom changes, and only on success; validity is preserved |
| Etudiants.Etudiant.SetMoyenne | LireEtudiants/src/Etudiant.java:121-126 | succeeds iff 0 <= x <= 100, both bounds included; only moyenne changes, and only on success; validity is preserved |
| Etudiants.Etudiant.CompareTo | LireEtudiants/src/Etudiant.java:163-173 | the result is antisymmetric and is 0 iff prenom and nom are both equal |
| Etudiants.Etudiant.HashCode | LireEtudiants/src/Etudiant.java:188-196 | a signed 32-bit value computed from the matricule alone |
| Etudiants.Etudiant.Equals | LireEtudiants/src/Etudiant.java:175-186 | reflexive; true only for an Etudiant, never for null or another type; equal objects have equal hash codes |
| Etudiants.EqualsEquivalence | LireEtudiants/src/Etudiant.java:175-186 | equals holds iff the matricules are equal; it is symmetric and transitive |
| Etudiants.ExemplesEquals | LireEtudiants/src/tests/EtudiantTest.java:22-39 | same matricule: equal; different matricule: not equal; null and a non-Etudiant: not equal |
| Tri.Inserer | LireEtudiants/src/ListeEtudiants.java:94-96 | defines the step of the stable sort: the record goes before the first record that comes strictly after it |
| Tri.TriStable | LireEtudiants/src/ListeEtudiants.java:94-96 | defines the stable sort as insertion of each record in turn into the sorted prefix |
| Tri.FiltreConcat | LireEtudiants/src/ListeEtudiants.java:94-96 | the records of one key in a concatenation are those of each part, in order |
| Tri.FiltreVide | LireEtudiants/src/ListeEtudiants.java:94-96 | a sequence with no record of a key has none to filter |
| Tri.InsererPermutation | LireEtudiants/src/ListeEtudiants.java:94-96 | inserting adds exactly the one record |
| Tri.InsererTriee | LireEtudiants/src/ListeEtudiants.java:94-96 | inserting into a sorted sequence keeps it sorted |
| Tri.InsererFiltre | LireEtudiants/src/ListeEtudiants.java:94-96 | the inserted record goes after every record it ties with |
| Tri.TriStableTriee | LireEtudiants/src/ListeEtudiants.java:94-96 | the sort result is sorted by compareTo |
| Tri.TriStablePermutation | LireEtudiants/src/ListeEtudiants.java:94-96 | the sort result is a permutation of its input |
| Tri.TriStableStable | LireEtudiants/src/ListeEtudiants.java:94-96 | for every (prenom, nom), the records with that key keep their relative order |
| Tri.TriStableDejaTriee | LireEtudiants/src/ListeEtudiants.java:94-96 | an already sorted list is left unchanged |
| Tri.InsererEnFin | LireEtudiants/src/ListeEtudiants.java:94-96 | a record that no earlier record comes strictly after is appended at the end |
| Listes.AnalyserLigne | LireEtudiants/src/ListeEtudiants.java:42-51 | defines the reading of one data line: split on `;`, four fields required, the fourth read as a number, then the constructor's checks; each failure gives its `Cause` |
| Listes.LigneDe | LireEtudiants/src/ListeEtudiants.java:63-72 | defines the written line of one record: its four fields joined with `;` |
| Listes.AnalyserLigneChamps | LireEtudiants/src/ListeEtudiants.java:42-51 | a line gives a record iff it splits into exactly 4 fields, the 4th reads as a number and the record is valid; the fields are taken in the order matricule, prenom, nom, moyenne |
| Listes.LigneDeChamps | LireEtudiants/src/ListeEtudiants.java:67-72 | the written line is matricule;prenom;nom;moyenne |
| Listes.AnalyserLigneDe | LireEtudiants/src/ListeEtudiants.java:59-72 | parsing the written line gives back the same four fields, when no field contains `;` and the number text reads back |
| Listes.LueRelisible | LireEtudiants/src/ListeEtudiants.java:42-72 | a line that reads as a record, written again, reads back as the same record, when the number text is non-empty, has no `;` and reads back |
| Listes.DecouperLigneDe | LireEtudiants/src/ListeEtudiants.java:43 | the raw fields of a written line are those of matricule, prenom and nom followed by the number text |
| Listes.SeparerLigneDe | LireEtudiants/src/ListeEtudiants.java:43 | the written line of a record with `;` in matricule, prenom or nom splits into at least 5 fields |
| Listes.PointVirguleIllisible | LireEtudiants/src/Etudiant.java:95-100 | for every record with `;` in matricule, prenom or nom, its written line is rejected for having more than 4 fields |
| Listes.PointVirguleDansPrenom | LireEtudiants/src/Etudiant.java:95-100 | one example: the record (1234567, "Alice;Marie", Dupont, 85.0) passes the setters, but its written line splits into 5 fields and is rejected |
| Listes.LecteurValide | LireEtudiants/src/ListeEtudiants.java:42-51 | every line the reader accepts gives a valid record |
| Listes.Charger | LireEtudiants/src/ListeEtudiants.java:29-51 | defines the load: the header line is skipped, and each data line in turn adds its record or its rejection with the line index |
| Listes.ChargerBilan | LireEtudiants/src/ListeEtudiants.java:36-51 | each data line gives either one record or one rejection; rejections carry the line's own cause, in increasing line order |
| Listes.ChargerValides | LireEtudiants/src/ListeEtudiants.java:42-51 | when the reader only accepts valid records, every loaded record is valid |
| Listes.ChargerLues | LireEtudiants/src/ListeEtudiants.java:36-51 | data lines that all read as records load as exactly those records, in order, with no rejection |
| Listes.ChargerIgnoreEntete | LireEtudiants/src/ListeEtudiants.java:36-37 | the first line is never read: any header gives the same load |
| Listes.ChargerRejetSansEffet | LireEtudiants/src/ListeEtudiants.java:42-51 | a rejected line does not change the records loaded from the other lines |
| Listes.Ecrire | LireEtudiants/src/ListeEtudiants.java:63-72 | defines the written file: one `LigneDe` per record, in list order |
| Listes.ChargerEcrire | LireEtudiants/src/ListeEtudiants.java:63-72 | the written lines, read back after a header, give the same records and no rejection |
| Listes.ChargerEcrireSansEntete | LireEtudiants/src/ListeEtudiants.java:36-40 | the written lines read back with no header lose the first record |
| Listes.BonifierFiche | LireEtudiants/src/ListeEtudiants.java:81-88 | defines the bonus on one record: the moyenne plus the points, clamped into [0, 100] |
| Listes.Bonifier | LireEtudiants/src/ListeEtudiants.java:81-88 | defines the bonus on the list: `BonifierFiche` on each record, in place |
| Listes.Borner | LireEtudiants/src/ListeEtudiants.java:81-88 | the clamp result is within [0, 100], equals its input when in range, and equals the bound that was crossed otherwise |
| Listes.BonifierBornes | LireEtudiants/src/ListeEtudiants.java:81-88 | after the bonus: same length; every moyenne in [0, 100]; matricule, prenom and nom unchanged; valid records stay valid; no comparison between records changes |
| Listes.BonifierExemples | LireEtudiants/src/ListeEtudiants.java:81-88 | an in-range sum is kept exactly; 95 + 10 gives 100; 5 - 10 gives 0 |
| Listes.TexteListe | LireEtudiants/src/ListeEtudiants.java:103-110 | defines the text of the list: each record's text followed by a line break, in list order |
| Listes.TexteListeConcat | LireEtudiants/src/ListeEtudiants.java:103-110 | the text of a concatenation is the text of the first part followed by the text of the second |
| Listes.InsererEtudiant | LireEtudiants/src/ListeEtudiants.java:94-96 | the objects are those of the list plus one, and their records are the records of the list with the new one inserted as the stable sort does |
| Listes.LireLigne | LireEtudiants/src/ListeEtudiants.java:42-51 | creates a fresh, valid object exactly when the line parses, holding the parsed fields; otherwise returns the cause of the rejection |
| Listes.LireSuivante | LireEtudiants/src/ListeEtudiants.java:42-51 | one pass of the loop: the new record or the rejection is added as the reader's result for that line dictates, and the list stays valid and free of repeats |
| Listes.LireLignes | LireEtudiants/src/ListeEtudiants.java:36-51 | the loop over the data lines yields fresh, distinct, valid objects whose records and rejections are exactly `Charger` of the lines |
| Listes.TrierEtudiants | LireEtudiants/src/ListeEtudiants.java:94-96 | the objects are a permutation of the input, and their records are the stable sort of the input's records |
| Listes.ListeEtudiants.constructor | LireEtudiants/src/ListeEtudiants.java:21-23 | a new list is empty |
| Listes.ListeEtudiants.LireEtudiants | LireEtudiants/src/ListeEtudiants.java:29-57 | previous contents are dropped; the list then holds the records of `Charger` in file order, as fresh distinct valid objects; the rejections are reported |
| Listes.ListeEtudiants.EcrireEtudiants | LireEtudiants/src/ListeEtudiants.java:63-79 | one matricule;prenom;nom;moyenne line per record, in list order |
| Listes.ListeEtudiants.BonifierNotes | LireEtudiants/src/ListeEtudiants.java:81-88 | the same objects in the same order; each moyenne becomes moyenne + points clamped into [0, 100]; nothing else changes |
| Listes.ListeEtudiants.Trier | LireEtudiants/src/ListeEtudiants.java:90-96 | the same objects, permuted, with no field changed; the records equal the stable sort of the old records and are sorted |
| Listes.ListeEtudiants.ToString | LireEtudiants/src/ListeEtudiants.java:103-110 | each record's toString followed by a line break, in list order; an empty list gives "" |

`Trier` states that its result is the stable sort `TriStable` of the old records. That `TriStable` is sorted, is a permutation, and keeps ties in order is proved once, in `Tri.TriStableTriee`, `Tri.TriStablePermutation` and `Tri.TriStableStable`. Since `Trier` modifies only the list, no field of any record changes.

## Left out

- File access: the paths built from `user.dir`, and the opening, reading, writing, flushing and closing of files. Loading takes the file's lines as a sequence, and writing returns a sequence of lines.
- The printing of an `IOException` in `lireEtudiants` and `ecrireEtudiants`. This is console output.
- Floating point. Moyenne is a `real`. `Double.parseDouble` and `Double.toString` are the parameters `lireNombre` and `ecrireNombre`, so NaN, rounding and the exact number format are not modelled.
- Chaines.ComparerChaines: compares Dafny characters by code, whereas Java's `String.compareTo` compares UTF-16 code units. The two differ only for characters outside the Basic Multilingual Plane.
- Etudiants.ValiderMatricule: counts Dafny characters (Unicode scalar values), whereas `matricule.length()` counts UTF-16 code units. A matricule with a character outside the Basic Multilingual Plane is judged differently: "12345" followed by one emoji has Java length 7 and is accepted by Java but rejected by the model, and a 7-character string holding such a character is accepted by the model but has Java length 8 or more and is rejected by Java.
- Chaines.HachageChaine: hashes Dafny characters, not UTF-16 code units. Only the "function of the matricule alone" property is claimed for `Etudiants.Etudiant.HashCode`.
- Null arguments, which make the Java setters throw `NullPointerException`. Dafny strings are never null. Java's unset fields are null before the constructor's setters run; `Etudiants.Etudiant.constructor` uses empty strings instead.
- The text of the exception messages. An error carries only the field whose check failed.
- Etudiants.Decrire: the exact `Double.toString` text of the moyenne in `Etudiant.toString` is left to the `ecrireNombre` parameter.
- Listes.AnalyserLigne: a line must split into exactly four fields. A completion that indexed only the first four fields of the split would accept extra fields; the model rejects them as `NombreDeChamps`.
