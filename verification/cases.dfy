/** The immigration-case route: the built-in step catalog, the choice between an
    administrator template and that catalog, the POST that creates a case and
    its steps, and the GET that lists a user's cases with their steps in
    step-number order. */
module Cases {
  import opened Common

  datatype ProofType = Screenshot | Document | Certificate

  datatype StepStatus = NotStarted | InProgress | PendingValidation | Completed | Blocked

  /** The only case status the core writes is PENDING, at creation. */
  datatype CaseStatus = Pending

  /** A step of the built-in catalog: no number yet, it gets one from its position. */
  datatype CatalogStep = CatalogStep(
    title: string,
    description: string,
    requiresProof: bool,
    proofType: Option<ProofType>)

  // ---------------------------------------------------------------------------
  // The built-in catalog.

  const FranceStudentSteps: seq<CatalogStep> := [
    CatalogStep("Création du compte Campus France",
      "Créez votre compte sur le site Campus France et remplissez votre dossier en ligne. Vous devrez fournir vos informations personnelles, académiques et votre projet d'études.",
      true, Some(Screenshot)),
    CatalogStep("Préparation des documents académiques",
      "Rassemblez tous vos diplômes, relevés de notes et attestations de réussite. Faites-les traduire si nécessaire et obtenez les certifications requises.",
      true, Some(Document)),
    CatalogStep("Obtention de l'attestation d'acceptation",
      "Recevez votre lettre d'acceptation de l'université française et téléchargez-la sur votre compte Campus France.",
      true, Some(Document)),
    CatalogStep("Justificatif de ressources financières",
      "Préparez les documents prouvant que vous disposez d'au moins 615€ par mois pour votre séjour en France (relevés bancaires, attestation de prise en charge, etc.).",
      true, Some(Document)),
    CatalogStep("Entretien Campus France",
      "Prenez rendez-vous et passez votre entretien pédagogique avec Campus France. Préparez-vous à expliquer votre projet d'études et vos motivations.",
      true, Some(Certificate)),
    CatalogStep("Demande de visa",
      "Une fois validé par Campus France, prenez rendez-vous au consulat de France et déposez votre demande de visa avec tous les documents requis.",
      true, Some(Screenshot)),
    CatalogStep("Suivi du dossier",
      "Suivez l'avancement de votre demande de visa en ligne et attendez la décision. Le délai de traitement est généralement de 2 à 4 semaines.",
      false, None)]

  const CanadaStudentSteps: seq<CatalogStep> := [
    CatalogStep("Lettre d'acceptation d'une université",
      "Obtenez une lettre d'acceptation d'un établissement d'enseignement désigné (EED) canadien.",
      true, Some(Document)),
    CatalogStep("Preuve de fonds suffisants",
      "Démontrez que vous disposez des fonds nécessaires pour payer vos frais de scolarité et subvenir à vos besoins au Canada.",
      true, Some(Document)),
    CatalogStep("Test de langue",
      "Passez un test de langue reconnu (IELTS, TEF Canada) et obtenez le score requis par votre programme.",
      true, Some(Certificate)),
    CatalogStep("Examen médical",
      "Passez un examen médical auprès d'un médecin agréé par IRCC si requis pour votre pays d'origine.",
      true, Some(Certificate)),
    CatalogStep("Création du compte IRCC",
      "Créez votre compte sur le portail d'Immigration, Réfugiés et Citoyenneté Canada (IRCC) et remplissez la demande en ligne.",
      true, Some(Screenshot)),
    CatalogStep("Soumission de la demande",
      "Téléchargez tous les documents requis et payez les frais de traitement (150 CAD).",
      true, Some(Screenshot)),
    CatalogStep("Données biométriques",
      "Prenez rendez-vous dans un centre de collecte de données biométriques et fournissez vos empreintes digitales et photo.",
      true, Some(Certificate)),
    CatalogStep("Suivi et décision",
      "Suivez votre demande en ligne. Le délai de traitement varie selon votre pays (généralement 3-12 semaines).",
      false, None)]

  const GenericSteps: seq<CatalogStep> := [
    CatalogStep("Préparation des documents",
      "Rassemblez tous les documents nécessaires pour votre demande de visa.",
      false, None),
    CatalogStep("Création du dossier en ligne",
      "Créez votre compte sur la plateforme officielle et remplissez le formulaire de demande.",
      true, Some(Screenshot)),
    CatalogStep("Soumission de la demande",
      "Soumettez votre demande complète avec tous les documents requis.",
      true, Some(Document)),
    CatalogStep("Paiement des frais",
      "Payez les frais de traitement de votre demande de visa.",
      true, Some(Screenshot)),
    CatalogStep("Suivi du dossier",
      "Suivez l'avancement de votre demande et attendez la décision.",
      false, None)]

  /** A step needs a proof type exactly when it requires a proof. */
  predicate ProofConsistent(s: CatalogStep)
  {
    s.proofType.None? <==> !s.requiresProof
  }

  /** The catalog entry for a (country, visa type) pair, by exact string match on
      both; every other pair gets the generic five steps. */
  function DefaultStepsForCountry(country: string, visaType: string): (r: seq<CatalogStep>)
    ensures country == "France" && visaType == "STUDENT" ==> |r| == 7
    ensures country == "Canada" && visaType == "STUDENT" ==> |r| == 8
    ensures !(country == "France" && visaType == "STUDENT") && !(country == "Canada" && visaType == "STUDENT") ==>
      r == GenericSteps && |r| == 5
    ensures forall i :: 0 <= i < |r| ==> ProofConsistent(r[i])
    ensures !r[|r| - 1].requiresProof
  {
    CatalogIsProofConsistent();
    if country == "France" && visaType == "STUDENT" then FranceStudentSteps
    else if country == "Canada" && visaType == "STUDENT" then CanadaStudentSteps
    else GenericSteps
  }

  lemma CatalogIsProofConsistent()
    ensures forall i :: 0 <= i < |FranceStudentSteps| ==> ProofConsistent(FranceStudentSteps[i])
    ensures forall i :: 0 <= i < |CanadaStudentSteps| ==> ProofConsistent(CanadaStudentSteps[i])
    ensures forall i :: 0 <= i < |GenericSteps| ==> ProofConsistent(GenericSteps[i])
  {
  }

  /** The France and Canada lists require a proof at every step but the last; the
      generic list requires one at its three middle steps only. */
  lemma CatalogProofPlacement()
    ensures forall i :: 0 <= i < |FranceStudentSteps| ==>
      (FranceStudentSteps[i].requiresProof <==> i < |FranceStudentSteps| - 1)
    ensures forall i :: 0 <= i < |CanadaStudentSteps| ==>
      (CanadaStudentSteps[i].requiresProof <==> i < |CanadaStudentSteps| - 1)
    ensures forall i :: 0 <= i < |GenericSteps| ==>
      (GenericSteps[i].requiresProof <==> 1 <= i <= 3)
  {
  }

  // ---------------------------------------------------------------------------
  // Cases, their steps, and administrator templates.

  datatype ImmigrationCase = ImmigrationCase(
    id: nat,
    userId: nat,
    country: string,
    visaType: string,
    description: Option<string>,
    status: CaseStatus)

  datatype CaseStep = CaseStep(
    caseId: nat,
    stepNumber: int,
    title: string,
    description: string,
    status: StepStatus,
    requiresProof: bool,
    proofType: Option<ProofType>)

  datatype TemplateStep = TemplateStep(
    stepNumber: int,
    title: string,
    description: string,
    requiresProof: bool,
    proofType: Option<ProofType>)

  datatype ProcedureTemplate = ProcedureTemplate(
    country: string,
    visaType: string,
    isActive: bool,
    steps: seq<TemplateStep>)

  predicate TemplateMatches(t: ProcedureTemplate, country: string, visaType: string)
  {
    t.country == country && t.visaType == visaType && t.isActive
  }

  /** `findFirst`: the index of the first active template for the pair. */
  function FindTemplate(templates: seq<ProcedureTemplate>, country: string, visaType: string): (r: Option<nat>)
    ensures r.Some? ==> r.value < |templates| && TemplateMatches(templates[r.value], country, visaType)
    ensures r.Some? ==> forall j :: 0 <= j < r.value ==> !TemplateMatches(templates[j], country, visaType)
    ensures r.None? ==> forall j :: 0 <= j < |templates| ==> !TemplateMatches(templates[j], country, visaType)
    decreases |templates|
  {
    if templates == [] then None
    else if TemplateMatches(templates[0], country, visaType) then Some(0)
    else
      match FindTemplate(templates[1..], country, visaType)
      case None => None
      case Some(k) => Some(k + 1)
  }

  function StepNumberKey(s: TemplateStep): int
  {
    s.stepNumber
  }

  function CaseStepNumberKey(s: CaseStep): int
  {
    s.stepNumber
  }

  /** The row a template step becomes: its fields copied, status NOT_STARTED. */
  function TemplateRow(caseId: nat, t: TemplateStep): CaseStep
  {
    CaseStep(caseId, t.stepNumber, t.title, t.description, NotStarted, t.requiresProof, t.proofType)
  }

  /** The rows a template gives, in the order its steps are read (by step number). */
  function TemplateRows(caseId: nat, steps: seq<TemplateStep>): seq<CaseStep>
  {
    var ordered := SortByKey(steps, StepNumberKey);
    seq(|ordered|, i requires 0 <= i < |ordered| => TemplateRow(caseId, ordered[i]))
  }

  /** The rows a catalog list gives: step number = position + 1, status NOT_STARTED. */
  function DefaultRows(caseId: nat, d: seq<CatalogStep>): seq<CaseStep>
  {
    seq(|d|, i requires 0 <= i < |d| =>
      CaseStep(caseId, i + 1, d[i].title, d[i].description, NotStarted, d[i].requiresProof, d[i].proofType))
  }

  /** Whether the template route is taken: an active template with at least one step. */
  predicate UsesTemplate(templates: seq<ProcedureTemplate>, country: string, visaType: string)
  {
    var found := FindTemplate(templates, country, visaType);
    found.Some? && |templates[found.value].steps| > 0
  }

  /** The steps a new case gets. */
  function ResolvedSteps(caseId: nat, country: string, visaType: string, templates: seq<ProcedureTemplate>): seq<CaseStep>
  {
    if UsesTemplate(templates, country, visaType) then
      TemplateRows(caseId, templates[FindTemplate(templates, country, visaType).value].steps)
    else
      DefaultRows(caseId, DefaultStepsForCountry(country, visaType))
  }

  // ---------------------------------------------------------------------------
  // Properties of the resolved steps.

  /** Every created step belongs to the new case and starts NOT_STARTED. */
  lemma ResolvedStepsStartNotStarted(caseId: nat, country: string, visaType: string, templates: seq<ProcedureTemplate>)
    ensures forall s :: s in ResolvedSteps(caseId, country, visaType, templates) ==>
      s.caseId == caseId && s.status == NotStarted
  {
  }

  ghost function StepNumbers(rows: seq<CaseStep>): set<int>
  {
    set s | s in rows :: s.stepNumber
  }

  /** Catalog rows are numbered 1..n: contiguous, in order, without duplicates. */
  lemma DefaultRowsNumbered(caseId: nat, d: seq<CatalogStep>)
    ensures var rows := DefaultRows(caseId, d);
      (forall k :: k in StepNumbers(rows) <==> 1 <= k <= |d|) &&
      (forall i, j :: 0 <= i < j < |rows| ==> rows[i].stepNumber < rows[j].stepNumber)
  {
    var rows := DefaultRows(caseId, d);
    forall k | 1 <= k <= |d| ensures k in StepNumbers(rows) {
      assert rows[k - 1] in rows;
    }
  }

  /** Catalog rows carry the catalog's proof requirements, so a proof type is
      present exactly when a proof is required. */
  lemma DefaultRowsProofConsistent(caseId: nat, country: string, visaType: string)
    ensures forall s :: s in DefaultRows(caseId, DefaultStepsForCountry(country, visaType)) ==>
      (s.proofType.None? <==> !s.requiresProof)
  {
    var d := DefaultStepsForCountry(country, visaType);
    var rows := DefaultRows(caseId, d);
    forall s | s in rows ensures s.proofType.None? <==> !s.requiresProof {
      var i :| 0 <= i < |rows| && rows[i] == s;
      assert ProofConsistent(d[i]);
    }
  }

  /** A template's steps are copied verbatim: each template step gives exactly one
      row with its own number, title, description and proof fields, and no row
      comes from anywhere else. */
  lemma TemplateCopiedVerbatim(caseId: nat, steps: seq<TemplateStep>)
    ensures |TemplateRows(caseId, steps)| == |steps|
    ensures forall t :: t in steps ==> TemplateRow(caseId, t) in TemplateRows(caseId, steps)
    ensures forall r :: r in TemplateRows(caseId, steps) ==> exists t :: t in steps && r == TemplateRow(caseId, t)
    ensures forall t :: multiset(TemplateRows(caseId, steps))[TemplateRow(caseId, t)] == multiset(steps)[t]
  {
    var ordered := SortByKey(steps, StepNumberKey);
    var rows := TemplateRows(caseId, steps);
    TemplateRowsCounts(caseId, steps);
    assert |ordered| == |multiset(ordered)| == |multiset(steps)| == |steps|;
    forall t | t in steps ensures TemplateRow(caseId, t) in rows {
      assert multiset(steps)[t] > 0;
      assert TemplateRow(caseId, t) in multiset(rows);
    }
    forall r | r in rows ensures exists t :: t in steps && r == TemplateRow(caseId, t) {
      var i :| 0 <= i < |rows| && rows[i] == r;
      assert ordered[i] in multiset(ordered);
      assert ordered[i] in steps;
    }
  }

  lemma TemplateRowsCounts(caseId: nat, steps: seq<TemplateStep>)
    ensures forall t :: multiset(TemplateRows(caseId, steps))[TemplateRow(caseId, t)] == multiset(steps)[t]
  {
    var ordered := SortByKey(steps, StepNumberKey);
    var rows := TemplateRows(caseId, steps);
    forall t ensures multiset(rows)[TemplateRow(caseId, t)] == multiset(steps)[t] {
      CopyCounts(caseId, ordered, rows, t);
    }
  }

  /** Copying a list row by row keeps each step's multiplicity: a row occurs as
      often as the template step it was copied from. */
  lemma {:induction false} CopyCounts(caseId: nat, ordered: seq<TemplateStep>, rows: seq<CaseStep>, t: TemplateStep)
    requires |rows| == |ordered|
    requires forall i :: 0 <= i < |rows| ==> rows[i] == TemplateRow(caseId, ordered[i])
    ensures multiset(rows)[TemplateRow(caseId, t)] == multiset(ordered)[t]
    decreases |rows|
  {
    if rows != [] {
      var n := |rows| - 1;
      CopyCounts(caseId, ordered[..n], rows[..n], t);
      assert rows == rows[..n] + [rows[n]];
      assert ordered == ordered[..n] + [ordered[n]];
    }
  }

  /** The three cases of the choice: an active template with steps is copied;
      otherwise France/STUDENT gives 7 rows, Canada/STUDENT 8 and any other pair 5. */
  lemma ResolvedStepsSource(caseId: nat, country: string, visaType: string, templates: seq<ProcedureTemplate>)
    ensures UsesTemplate(templates, country, visaType) ==>
      |ResolvedSteps(caseId, country, visaType, templates)| ==
      |templates[FindTemplate(templates, country, visaType).value].steps|
    ensures !UsesTemplate(templates, country, visaType) ==>
      |ResolvedSteps(caseId, country, visaType, templates)| ==
        if country == "France" && visaType == "STUDENT" then 7
        else if country == "Canada" && visaType == "STUDENT" then 8
        else 5
  {
    if UsesTemplate(templates, country, visaType) {
      TemplateCopiedVerbatim(caseId, templates[FindTemplate(templates, country, visaType).value].steps);
    }
  }

  // ---------------------------------------------------------------------------
  // Reading cases back.

  datatype CaseView = CaseView(immigrationCase: ImmigrationCase, steps: seq<CaseStep>)

  /** The stored steps of one case, in store order. */
  function StepsFor(rows: seq<CaseStep>, caseId: nat): (r: seq<CaseStep>)
    ensures forall s :: s in r <==> s in rows && s.caseId == caseId
    decreases |rows|
  {
    if rows == [] then []
    else
      var front := rows[..|rows| - 1];
      var last := rows[|rows| - 1];
      assert rows == front + [last];
      StepsFor(front, caseId) + (if last.caseId == caseId then [last] else [])
  }

  /** Each row of the case occurs in the list as often as in the store; rows of
      other cases not at all. */
  lemma {:induction false} StepsForCounts(rows: seq<CaseStep>, caseId: nat)
    ensures forall s ::
      multiset(StepsFor(rows, caseId))[s] == if s.caseId == caseId then multiset(rows)[s] else 0
    decreases |rows|
  {
    if rows != [] {
      var front := rows[..|rows| - 1];
      var last := rows[|rows| - 1];
      StepsForCounts(front, caseId);
      assert rows == front + [last];
      assert multiset(rows) == multiset(front) + multiset{last};
    }
  }

  lemma {:induction false} StepsForAppend(rows: seq<CaseStep>, more: seq<CaseStep>, caseId: nat)
    ensures StepsFor(rows + more, caseId) == StepsFor(rows, caseId) + StepsFor(more, caseId)
    decreases |more|
  {
    if more == [] {
      assert rows + more == rows;
    } else {
      var m' := more[..|more| - 1];
      assert (rows + more)[..|rows + more| - 1] == rows + m';
      StepsForAppend(rows, m', caseId);
    }
  }

  lemma {:induction false} NoStepsForNewCase(rows: seq<CaseStep>, caseId: nat)
    requires forall i :: 0 <= i < |rows| ==> rows[i].caseId < caseId
    ensures StepsFor(rows, caseId) == []
    decreases |rows|
  {
    if rows != [] {
      NoStepsForNewCase(rows[..|rows| - 1], caseId);
    }
  }

  lemma {:induction false} AllStepsForOwnCase(rows: seq<CaseStep>, caseId: nat)
    requires forall i :: 0 <= i < |rows| ==> rows[i].caseId == caseId
    ensures StepsFor(rows, caseId) == rows
    decreases |rows|
  {
    if rows != [] {
      AllStepsForOwnCase(rows[..|rows| - 1], caseId);
      assert rows == rows[..|rows| - 1] + [rows[|rows| - 1]];
    }
  }

  /** Reading back the steps of a case created after all existing rows gives
      exactly the rows written for it. */
  lemma NewCaseStepsReadBack(before: seq<CaseStep>, added: seq<CaseStep>, caseId: nat)
    requires forall i :: 0 <= i < |before| ==> before[i].caseId < caseId
    requires forall s :: s in added ==> s.caseId == caseId
    ensures StepsFor(before + added, caseId) == added
  {
    StepsForAppend(before, added, caseId);
    NoStepsForNewCase(before, caseId);
    assert forall i :: 0 <= i < |added| ==> added[i] in added;
    AllStepsForOwnCase(added, caseId);
  }

  /** Steps in ascending step-number order, as `orderBy: { stepNumber: "asc" }` gives them. */
  function ByStepNumber(rows: seq<CaseStep>): (r: seq<CaseStep>)
    ensures multiset(r) == multiset(rows)
    ensures forall i, j :: 0 <= i < j < |r| ==> r[i].stepNumber <= r[j].stepNumber
  {
    SortByKey(rows, CaseStepNumberKey)
  }

  /** A user's cases, newest first, each with its steps by ascending step number. */
  function CaseViewsOf(cases: seq<ImmigrationCase>, rows: seq<CaseStep>, userId: nat): (r: seq<CaseView>)
    ensures forall v :: v in r ==> v.immigrationCase in cases && v.immigrationCase.userId == userId
    ensures forall c :: c in cases && c.userId == userId ==> exists v :: v in r && v.immigrationCase == c
    ensures forall v :: v in r ==>
      multiset(v.steps) == multiset(StepsFor(rows, v.immigrationCase.id)) &&
      forall i, j :: 0 <= i < j < |v.steps| ==> v.steps[i].stepNumber <= v.steps[j].stepNumber
    decreases |cases|
  {
    if cases == [] then []
    else
      var last := cases[|cases| - 1];
      var older := cases[..|cases| - 1];
      assert cases == older + [last];
      var rest := CaseViewsOf(older, rows, userId);
      if last.userId == userId then
        [CaseView(last, ByStepNumber(StepsFor(rows, last.id)))] + rest
      else
        rest
  }

  predicate CaseIdsDescending(views: seq<CaseView>)
  {
    forall i, j :: 0 <= i < j < |views| ==> views[i].immigrationCase.id > views[j].immigrationCase.id
  }

  /** With ids issued in creation order, the views run from the newest case down,
      so each of the user's cases appears once. */
  lemma {:induction false} CaseViewsNewestFirst(cases: seq<ImmigrationCase>, rows: seq<CaseStep>, userId: nat)
    requires forall i, j :: 0 <= i < j < |cases| ==> cases[i].id < cases[j].id
    ensures CaseIdsDescending(CaseViewsOf(cases, rows, userId))
    decreases |cases|
  {
    if cases != [] {
      var last := cases[|cases| - 1];
      var older := cases[..|cases| - 1];
      assert forall k :: 0 <= k < |older| ==> older[k] == cases[k];
      CaseViewsNewestFirst(older, rows, userId);
      var rest := CaseViewsOf(older, rows, userId);
      if last.userId == userId {
        forall v | v in rest ensures v.immigrationCase.id < last.id {
          var k :| 0 <= k < |older| && older[k] == v.immigrationCase;
        }
        PrependNewerCase(CaseView(last, ByStepNumber(StepsFor(rows, last.id))), rest);
      }
    }
  }

  lemma PrependNewerCase(v: CaseView, rest: seq<CaseView>)
    requires CaseIdsDescending(rest)
    requires forall w :: w in rest ==> w.immigrationCase.id < v.immigrationCase.id
    ensures CaseIdsDescending([v] + rest)
  {
    var r := [v] + rest;
    forall i, j | 0 <= i < j < |r| ensures r[i].immigrationCase.id > r[j].immigrationCase.id {
      assert r[j] == rest[j - 1];
      if i > 0 {
        assert r[i] == rest[i - 1];
      }
    }
  }

  // ---------------------------------------------------------------------------
  // The case store.

  class CaseStore {
    var cases: seq<ImmigrationCase>
    var steps: seq<CaseStep>
    var nextId: nat

    /** Case ids are issued in creation order and every step belongs to an issued case. */
    ghost predicate Valid()
      reads this
    {
      (forall i :: 0 <= i < |cases| ==> cases[i].id < nextId) &&
      (forall i, j :: 0 <= i < j < |cases| ==> cases[i].id < cases[j].id) &&
      (forall i :: 0 <= i < |steps| ==> steps[i].caseId < nextId)
    }

    constructor ()
      ensures Valid() && cases == [] && steps == []
    {
      cases, steps, nextId := [], [], 0;
    }

    /** `createDefaultSteps`: one row per catalog step, numbered by position. */
    method CreateDefaultSteps(caseId: nat, country: string, visaType: string)
      requires Valid() && caseId < nextId
      modifies this`steps
      ensures Valid()
      ensures steps == old(steps) + DefaultRows(caseId, DefaultStepsForCountry(country, visaType))
    {
      var defaults := DefaultStepsForCountry(country, visaType);
      AppendDefaultRows(caseId, defaults);
    }

    /** The loop of `createDefaultSteps` over the list it looked up. */
    method AppendDefaultRows(caseId: nat, defaults: seq<CatalogStep>)
      requires Valid() && caseId < nextId
      modifies this`steps
      ensures Valid()
      ensures steps == old(steps) + DefaultRows(caseId, defaults)
    {
      var index := 0;
      while index < |defaults|
        invariant 0 <= index <= |defaults|
        invariant Valid()
        invariant steps == old(steps) + DefaultRows(caseId, defaults[..index])
      {
        var step := defaults[index];
        assert DefaultRows(caseId, defaults[..index + 1]) == DefaultRows(caseId, defaults[..index]) +
          [CaseStep(caseId, index + 1, step.title, step.description, NotStarted, step.requiresProof, step.proofType)];
        steps := steps + [CaseStep(caseId, index + 1, step.title, step.description, NotStarted, step.requiresProof, step.proofType)];
        index := index + 1;
      }
      assert defaults[..index] == defaults;
    }

    /** The template branch of POST: one row per template step, fields copied. */
    method CopyTemplateSteps(caseId: nat, template: ProcedureTemplate)
      requires Valid() && caseId < nextId
      modifies this`steps
      ensures Valid()
      ensures steps == old(steps) + TemplateRows(caseId, template.steps)
    {
      var ordered := SortByKey(template.steps, StepNumberKey);
      var rows := TemplateRows(caseId, template.steps);
      var i := 0;
      while i < |ordered|
        invariant 0 <= i <= |ordered|
        invariant Valid()
        invariant steps == old(steps) + rows[..i]
      {
        assert rows[..i + 1] == rows[..i] + [TemplateRow(caseId, ordered[i])];
        steps := steps + [TemplateRow(caseId, ordered[i])];
        i := i + 1;
      }
      assert rows[..i] == rows;
    }

    /** POST: create the PENDING case, then its steps, and read it back with its
        steps in step-number order. */
    method Create(userId: nat, country: string, visaType: string, description: Option<string>,
                  templates: seq<ProcedureTemplate>)
      returns (created: ImmigrationCase, caseSteps: seq<CaseStep>)
      requires Valid()
      modifies this
      ensures Valid()
      ensures created == ImmigrationCase(old(nextId), userId, country, visaType, description, Pending)
      ensures cases == old(cases) + [created]
      ensures steps == old(steps) + ResolvedSteps(created.id, country, visaType, templates)
      ensures caseSteps == ByStepNumber(ResolvedSteps(created.id, country, visaType, templates))
    {
      created := ImmigrationCase(nextId, userId, country, visaType, description, Pending);
      nextId := nextId + 1;
      cases := cases + [created];
      ghost var before := steps;
      AddSteps(created.id, country, visaType, templates);
      ghost var added := ResolvedSteps(created.id, country, visaType, templates);
      ResolvedStepsStartNotStarted(created.id, country, visaType, templates);
      NewCaseStepsReadBack(before, added, created.id);
      caseSteps := ByStepNumber(StepsFor(steps, created.id));
    }

    /** The step creation of POST: the matching template's steps when it has any,
        otherwise the built-in list. */
    method AddSteps(caseId: nat, country: string, visaType: string, templates: seq<ProcedureTemplate>)
      requires Valid() && caseId < nextId
      modifies this`steps
      ensures Valid()
      ensures steps == old(steps) + ResolvedSteps(caseId, country, visaType, templates)
    {
      var found := FindTemplate(templates, country, visaType);
      if found.Some? && |templates[found.value].steps| > 0 {
        CopyTemplateSteps(caseId, templates[found.value]);
      } else {
        CreateDefaultSteps(caseId, country, visaType);
      }
    }

    /** GET: the caller's cases, newest first, each with its steps by step number. */
    function Get(userId: nat): (r: seq<CaseView>)
      reads this
      requires Valid()
      ensures forall v :: v in r ==> v.immigrationCase in cases && v.immigrationCase.userId == userId
      ensures forall c :: c in cases && c.userId == userId ==> exists v :: v in r && v.immigrationCase == c
      ensures forall v :: v in r ==>
        multiset(v.steps) == multiset(StepsFor(steps, v.immigrationCase.id)) &&
        forall i, j :: 0 <= i < j < |v.steps| ==> v.steps[i].stepNumber <= v.steps[j].stepNumber
      ensures forall i, j :: 0 <= i < j < |r| ==> r[i].immigrationCase.id > r[j].immigrationCase.id
    {
      CaseViewsNewestFirst(cases, steps, userId);
      CaseViewsOf(cases, steps, userId)
    }
  }
}
