/** The chat route: the plain-text context it builds from a user's stored data
    before asking the assistant, and its answer when the user, the API key or the
    assistant's reply is missing. */
module ChatContext {
  import opened Common
  import opened Profiles
  import opened Cases
  import opened Analysis

  /** What the chat route loads for a user: the person with their profile, their
      cases newest first (each with its steps by ascending step number), and the
      recommendations of their latest analysis, if any, in store order. */
  datatype ChatUser = ChatUser(
    person: Person,
    cases: seq<CaseView>,
    latestAnalysis: Option<seq<Recommendation>>)

  // ---------------------------------------------------------------------------
  // The specification of the context text.

  /** The entries' lines, one after the other, in list order. */
  function Lines<T>(xs: seq<T>, line: T -> string): string
    decreases |xs|
  {
    if xs == [] then "" else Lines(xs[..|xs| - 1], line) + line(xs[|xs| - 1])
  }

  /** A titled section: absent when it has no entries, else the title, the
      entries' lines and a blank line. */
  function Section<T>(title: string, xs: seq<T>, line: T -> string): (r: string)
    ensures r == "" <==> xs == []
    ensures xs != [] ==> title <= r && r[|r| - 1] == '\n'
  {
    if xs == [] then "" else title + Lines(xs, line) + "\n"
  }

  function Header(p: Person): string
  {
    NameLine(p) + "Email: " + p.email + "\n" + NationalityLine(p) + CountryLine(p)
  }

  function NameLine(p: Person): string
  {
    "Nom: " + OrElse(p.firstName, "Non renseigné") + " " + OrElse(p.lastName, "") + "\n"
  }

  function NationalityLine(p: Person): string
  {
    "Nationalité: " + OrElse(p.nationality, "Non renseignée") + "\n"
  }

  function CountryLine(p: Person): string
  {
    "Pays actuel: " + OrElse(p.currentCountry, "Non renseigné") + "\n\n"
  }

  function EducationLine(e: Education): string
  {
    "- " + e.degree + " en " + e.fieldOfStudy + " à " + e.institution + " (" + e.country + ")\n"
  }

  function WorkLine(w: WorkExperience): string
  {
    "- " + w.jobTitle + " chez " + w.company + " (" + w.country + ")\n"
  }

  /** A certificate is named as stored, so a missing name renders as "null". */
  function CertificateNote(l: LanguageSkill): string
  {
    if l.hasCertificate then " (Certifié: " + Rendered(l.certificateName) + ")" else ""
  }

  function LanguageLine(l: LanguageSkill): string
  {
    "- " + l.language + ": " + l.level + CertificateNote(l) + "\n"
  }

  /** The number of COMPLETED steps. */
  function CountCompleted(steps: seq<CaseStep>): (k: nat)
    ensures k <= |steps|
    ensures k == |steps| <==> forall i :: 0 <= i < |steps| ==> steps[i].status == StepStatus.Completed
    ensures k == 0 <==> forall i :: 0 <= i < |steps| ==> steps[i].status != StepStatus.Completed
    decreases |steps|
  {
    if steps == [] then 0
    else
      var rest := CountCompleted(steps[1..]);
      assert forall i :: 1 <= i < |steps| ==> steps[i] == steps[1..][i - 1];
      (if steps[0].status == StepStatus.Completed then 1 else 0) + rest
  }

  predicate IsOpen(s: CaseStep)
  {
    s.status == StepStatus.InProgress || s.status == NotStarted
  }

  /** The position of the first step that is IN_PROGRESS or NOT_STARTED. */
  function CurrentStep(steps: seq<CaseStep>): (r: Option<nat>)
    ensures r.Some? ==> r.value < |steps| && IsOpen(steps[r.value])
    ensures r.Some? ==> forall j :: 0 <= j < r.value ==> !IsOpen(steps[j])
    ensures r.None? <==> forall j :: 0 <= j < |steps| ==> !IsOpen(steps[j])
    decreases |steps|
  {
    if steps == [] then None
    else if IsOpen(steps[0]) then Some(0)
    else
      match CurrentStep(steps[1..])
      case None => None
      case Some(k) => Some(k + 1)
  }

  function ProgressText(k: nat, n: nat): string
  {
    DecimalString(k) + ("/" + (DecimalString(n) + " étapes complétées\n"))
  }

  function CaseLine(v: CaseView): string
  {
    var steps := v.steps;
    "- " + v.immigrationCase.country + " (" + v.immigrationCase.visaType + "): " +
    ProgressText(CountCompleted(steps), |steps|) +
    (match CurrentStep(steps)
     case None => ""
     case Some(i) => "  Étape actuelle: " + steps[i].title + "\n")
  }

  function RecommendationEntry(r: Recommendation): string
  {
    r.country + " (" + IntString(r.score) + "%)"
  }

  /** The first three recommendations, rendered. */
  function AnalysisEntries(recs: seq<Recommendation>): (r: seq<string>)
    ensures |r| == Min(3, |recs|)
    ensures forall i :: 0 <= i < |r| ==> r[i] == RecommendationEntry(recs[i])
  {
    var first := recs[..Min(3, |recs|)];
    seq(|first|, i requires 0 <= i < |first| => RecommendationEntry(first[i]))
  }

  function Join(items: seq<string>, separator: string): string
    decreases |items|
  {
    if items == [] then ""
    else if |items| == 1 then items[0]
    else Join(items[..|items| - 1], separator) + separator + items[|items| - 1]
  }

  /** Present whenever the user has an analysis, even one without recommendations. */
  function AnalysisSection(latest: Option<seq<Recommendation>>): (r: string)
    ensures r == "" <==> latest.None?
  {
    match latest
    case None => ""
    case Some(recs) =>
      "DERNIÈRE ANALYSE DE FAISABILITÉ:\n" + "Pays recommandés: " +
      Join(AnalysisEntries(recs), ", ") + "\n\n"
  }

  function EducationOf(p: Person): seq<Education>
  {
    if p.profile.Some? then p.profile.value.education else []
  }

  function WorkOf(p: Person): seq<WorkExperience>
  {
    if p.profile.Some? then p.profile.value.workExperience else []
  }

  function LanguagesOf(p: Person): seq<LanguageSkill>
  {
    if p.profile.Some? then p.profile.value.languages else []
  }

  /** The whole context: the header, then the education, work, language, case and
      analysis sections in that order. */
  function ContextText(u: ChatUser): string
  {
    Header(u.person) +
    Section("PARCOURS ACADÉMIQUE:\n", EducationOf(u.person), EducationLine) +
    Section("EXPÉRIENCE PROFESSIONNELLE:\n", WorkOf(u.person), WorkLine) +
    Section("COMPÉTENCES LINGUISTIQUES:\n", LanguagesOf(u.person), LanguageLine) +
    Section("DOSSIERS EN COURS:\n", u.cases, CaseLine) +
    AnalysisSection(u.latestAnalysis)
  }

  // ---------------------------------------------------------------------------
  // `buildUserContext`, appending to the text step by step.

  method AppendLines<T>(context: string, xs: seq<T>, line: T -> string) returns (r: string)
    ensures r == context + Lines(xs, line)
  {
    r := context;
    var i := 0;
    while i < |xs|
      invariant 0 <= i <= |xs|
      invariant r == context + Lines(xs[..i], line)
    {
      assert xs[..i + 1][..i] == xs[..i];
      r := r + line(xs[i]);
      i := i + 1;
    }
    assert xs[..i] == xs;
  }

  method AppendSection<T>(context: string, title: string, xs: seq<T>, line: T -> string) returns (r: string)
    ensures r == context + Section(title, xs, line)
  {
    r := context;
    if |xs| > 0 {
      r := r + title;
      r := AppendLines(r, xs, line);
      r := r + "\n";
    }
  }

  method BuildUserContext(u: ChatUser) returns (context: string)
    ensures context == ContextText(u)
  {
    var p := u.person;
    context := "Nom: " + OrElse(p.firstName, "Non renseigné") + " " + OrElse(p.lastName, "") + "\n";
    context := context + "Email: " + p.email + "\n";
    AppendRegroup(context, "Nationalité: ", OrElse(p.nationality, "Non renseignée"), "\n");
    context := context + "Nationalité: " + OrElse(p.nationality, "Non renseignée") + "\n";
    AppendRegroup(context, "Pays actuel: ", OrElse(p.currentCountry, "Non renseigné"), "\n\n");
    context := context + "Pays actuel: " + OrElse(p.currentCountry, "Non renseigné") + "\n\n";
    assert context == Header(p);

    context := AppendSection(context, "PARCOURS ACADÉMIQUE:\n", EducationOf(p), EducationLine);
    context := AppendSection(context, "EXPÉRIENCE PROFESSIONNELLE:\n", WorkOf(p), WorkLine);
    context := AppendSection(context, "COMPÉTENCES LINGUISTIQUES:\n", LanguagesOf(p), LanguageLine);
    context := AppendSection(context, "DOSSIERS EN COURS:\n", u.cases, CaseLine);

    if u.latestAnalysis.Some? {
      context := context + "DERNIÈRE ANALYSE DE FAISABILITÉ:\n";
      context := context + "Pays recommandés: ";
      context := context + Join(AnalysisEntries(u.latestAnalysis.value), ", ");
      context := context + "\n\n";
    }
  }

  // ---------------------------------------------------------------------------
  // Properties of the context.

  /** The header comes first, whatever the rest of the user's data. */
  lemma HeaderFirst(u: ChatUser)
    ensures Header(u.person) <= ContextText(u)
    ensures "Nom: " <= ContextText(u)
  {
    var h := Header(u.person);
    var x1 := h + Section("PARCOURS ACADÉMIQUE:\n", EducationOf(u.person), EducationLine);
    var x2 := x1 + Section("EXPÉRIENCE PROFESSIONNELLE:\n", WorkOf(u.person), WorkLine);
    var x3 := x2 + Section("COMPÉTENCES LINGUISTIQUES:\n", LanguagesOf(u.person), LanguageLine);
    var x4 := x3 + Section("DOSSIERS EN COURS:\n", u.cases, CaseLine);
    var t := x4 + AnalysisSection(u.latestAnalysis);
    assert ContextText(u) == t;
    PrefixOfLonger(h, x1, x2);
    PrefixOfLonger(h, x2, x3);
    PrefixOfLonger(h, x3, x4);
    PrefixOfLonger(h, x4, t);
    HeaderStartsWithName(u.person);
    PrefixOfLonger("Nom: ", h, t);
  }

  lemma HeaderStartsWithName(p: Person)
    ensures "Nom: " <= Header(p)
  {
    var rest := Header(p)[5..];
    assert Header(p) == "Nom: " + rest;
  }

  /** Prefixes chain: a prefix of `b` is a prefix of anything `b` is a prefix of. */
  lemma PrefixOfLonger(a: string, b: string, c: string)
    requires a <= b && b <= c
    ensures a <= c
  {
  }

  /** A user with no profile entries, no cases and no analysis gets only the header. */
  lemma HeaderOnlyWhenNothingElse(u: ChatUser)
    requires EducationOf(u.person) == [] && WorkOf(u.person) == [] && LanguagesOf(u.person) == []
    requires u.cases == [] && u.latestAnalysis.None?
    ensures ContextText(u) == Header(u.person)
  {
  }

  /** The name line: a missing (or empty) first name reads "Non renseigné", a
      missing last name is left blank, each independently of the other. */
  lemma NameLineDefaults(p: Person)
    ensures !Truthy(p.firstName) ==> NameLine(p) == "Nom: Non renseigné " + OrElse(p.lastName, "") + "\n"
    ensures Truthy(p.firstName) ==> NameLine(p) == "Nom: " + p.firstName.value + " " + OrElse(p.lastName, "") + "\n"
    ensures !Truthy(p.lastName) ==> NameLine(p) == "Nom: " + OrElse(p.firstName, "Non renseigné") + " \n"
    ensures Truthy(p.lastName) ==> NameLine(p) == "Nom: " + OrElse(p.firstName, "Non renseigné") + " " + p.lastName.value + "\n"
  {
    if !Truthy(p.firstName) {
      AppendRegroup("Nom: ", "Non renseigné", " ", OrElse(p.lastName, "") + "\n");
    }
  }

  /** The nationality line reads "Non renseignée" exactly when the nationality is missing or empty. */
  lemma NationalityLineDefault(p: Person)
    ensures !Truthy(p.nationality) ==> NationalityLine(p) == "Nationalité: Non renseignée\n"
    ensures Truthy(p.nationality) ==> NationalityLine(p) == "Nationalité: " + p.nationality.value + "\n"
  {
  }

  /** The country line reads "Non renseigné" exactly when the country is missing or empty. */
  lemma CountryLineDefault(p: Person)
    ensures !Truthy(p.currentCountry) ==> CountryLine(p) == "Pays actuel: Non renseigné\n\n"
    ensures Truthy(p.currentCountry) ==> CountryLine(p) == "Pays actuel: " + p.currentCountry.value + "\n\n"
  {
  }

  /** With all four fields missing the header is the all-defaults text. */
  lemma HeaderDefaults(p: Person)
    requires !Truthy(p.firstName) && !Truthy(p.lastName) && !Truthy(p.nationality) && !Truthy(p.currentCountry)
    ensures Header(p) ==
      "Nom: Non renseigné \n" + "Email: " + p.email + "\n" +
      "Nationalité: Non renseignée\n" + "Pays actuel: Non renseigné\n\n"
  {
    var name := "Nom: " + "Non renseigné" + " " + "" + "\n";
    assert name == "Nom: Non renseigné \n";
    var nationality := "Nationalité: " + "Non renseignée" + "\n";
    assert nationality == "Nationalité: Non renseignée\n";
    var country := "Pays actuel: " + "Non renseigné" + "\n\n";
    assert country == "Pays actuel: Non renseigné\n\n";
  }

  lemma AppendRegroup(s: string, a: string, b: string, c: string)
    ensures s + a + b + c == s + (a + b + c)
  {
  }

  function CountChar(s: string, c: char): nat
    decreases |s|
  {
    if s == [] then 0 else CountChar(s[..|s| - 1], c) + (if s[|s| - 1] == c then 1 else 0)
  }

  lemma {:induction false} CountCharAppend(a: string, b: string, c: char)
    ensures CountChar(a + b, c) == CountChar(a, c) + CountChar(b, c)
    decreases |b|
  {
    if b == [] {
      assert a + b == a;
    } else {
      assert (a + b)[..|a + b| - 1] == a + b[..|b| - 1];
      CountCharAppend(a, b[..|b| - 1], c);
    }
  }

  /** When every entry renders as exactly one line, the entries give as many lines
      as there are entries. */
  lemma {:induction false} OneLinePerEntry<T>(xs: seq<T>, line: T -> string)
    requires forall x :: x in xs ==> CountChar(line(x), '\n') == 1
    ensures CountChar(Lines(xs, line), '\n') == |xs|
    decreases |xs|
  {
    if xs != [] {
      var front := xs[..|xs| - 1];
      assert forall x :: x in front ==> x in xs;
      OneLinePerEntry(front, line);
      CountCharAppend(Lines(front, line), line(xs[|xs| - 1]), '\n');
    }
  }

  predicate NoNewline(s: string)
  {
    forall i :: 0 <= i < |s| ==> s[i] != '\n'
  }

  lemma {:induction false} NoNewlineCount(s: string)
    requires NoNewline(s)
    ensures CountChar(s, '\n') == 0
    decreases |s|
  {
    if s != [] {
      NoNewlineCount(s[..|s| - 1]);
    }
  }

  lemma NoNewlineConcat(a: string, b: string)
    requires NoNewline(a) && NoNewline(b)
    ensures NoNewline(a + b)
  {
    forall i | 0 <= i < |a + b| ensures (a + b)[i] != '\n' {
      CharOfConcat(a, b, i);
    }
  }

  /** Text without a break, then one break: exactly one line. */
  lemma SingleLine(body: string)
    requires NoNewline(body)
    ensures CountChar(body + "\n", '\n') == 1
  {
    NoNewlineCount(body);
    CountCharAppend(body, "\n", '\n');
  }

  /** Education entries whose fields hold no line break give one line each. */
  lemma EducationOneLineEach(es: seq<Education>)
    requires forall e :: e in es ==>
      NoNewline(e.degree) && NoNewline(e.fieldOfStudy) && NoNewline(e.institution) && NoNewline(e.country)
    ensures CountChar(Lines(es, EducationLine), '\n') == |es|
  {
    forall e | e in es ensures CountChar(EducationLine(e), '\n') == 1 {
      EducationLineSingle(e);
    }
    OneLinePerEntry(es, EducationLine);
  }

  lemma EducationLineSingle(e: Education)
    requires NoNewline(e.degree) && NoNewline(e.fieldOfStudy) && NoNewline(e.institution) && NoNewline(e.country)
    ensures CountChar(EducationLine(e), '\n') == 1
  {
    var body := "- " + e.degree;
    NoNewlineConcat("- ", e.degree);
    NoNewlineConcat(body, " en ");
    body := body + " en ";
    NoNewlineConcat(body, e.fieldOfStudy);
    body := body + e.fieldOfStudy;
    NoNewlineConcat(body, " à ");
    body := body + " à ";
    NoNewlineConcat(body, e.institution);
    body := body + e.institution;
    NoNewlineConcat(body, " (");
    body := body + " (";
    NoNewlineConcat(body, e.country);
    body := body + e.country;
    NoNewlineConcat(body, ")");
    body := body + ")";
    SingleLine(body);
    assert EducationLine(e) == body + "\n";
  }

  /** Work entries whose fields hold no line break give one line each. */
  lemma WorkOneLineEach(ws: seq<WorkExperience>)
    requires forall w :: w in ws ==> NoNewline(w.jobTitle) && NoNewline(w.company) && NoNewline(w.country)
    ensures CountChar(Lines(ws, WorkLine), '\n') == |ws|
  {
    forall w | w in ws ensures CountChar(WorkLine(w), '\n') == 1 {
      WorkLineSingle(w);
    }
    OneLinePerEntry(ws, WorkLine);
  }

  lemma WorkLineSingle(w: WorkExperience)
    requires NoNewline(w.jobTitle) && NoNewline(w.company) && NoNewline(w.country)
    ensures CountChar(WorkLine(w), '\n') == 1
  {
    var body := "- " + w.jobTitle;
    NoNewlineConcat("- ", w.jobTitle);
    NoNewlineConcat(body, " chez ");
    body := body + " chez ";
    NoNewlineConcat(body, w.company);
    body := body + w.company;
    NoNewlineConcat(body, " (");
    body := body + " (";
    NoNewlineConcat(body, w.country);
    body := body + w.country;
    NoNewlineConcat(body, ")");
    body := body + ")";
    SingleLine(body);
    assert WorkLine(w) == body + "\n";
  }

  /** Language entries whose fields hold no line break give one line each. */
  lemma LanguageOneLineEach(ls: seq<LanguageSkill>)
    requires forall l :: l in ls ==>
      NoNewline(l.language) && NoNewline(l.level) && NoNewline(Rendered(l.certificateName))
    ensures CountChar(Lines(ls, LanguageLine), '\n') == |ls|
  {
    forall l | l in ls ensures CountChar(LanguageLine(l), '\n') == 1 {
      LanguageLineSingle(l);
    }
    OneLinePerEntry(ls, LanguageLine);
  }

  lemma LanguageLineSingle(l: LanguageSkill)
    requires NoNewline(l.language) && NoNewline(l.level) && NoNewline(Rendered(l.certificateName))
    ensures CountChar(LanguageLine(l), '\n') == 1
  {
    if l.hasCertificate {
      NoNewlineConcat(" (Certifié: ", Rendered(l.certificateName));
      NoNewlineConcat(" (Certifié: " + Rendered(l.certificateName), ")");
    }
    var body := "- " + l.language;
    NoNewlineConcat("- ", l.language);
    NoNewlineConcat(body, ": ");
    body := body + ": ";
    NoNewlineConcat(body, l.level);
    body := body + l.level;
    NoNewlineConcat(body, CertificateNote(l));
    body := body + CertificateNote(l);
    SingleLine(body);
    assert LanguageLine(l) == body + "\n";
  }

  /** A language line carries the certificate note exactly when the skill is
      certified; the note is what ends the line before its break. */
  lemma CertificateNoteIffCertified(l: LanguageSkill)
    ensures l.hasCertificate ==>
      LanguageLine(l) == "- " + l.language + ": " + l.level + " (Certifié: " + Rendered(l.certificateName) + ")\n"
    ensures !l.hasCertificate ==> LanguageLine(l) == "- " + l.language + ": " + l.level + "\n"
  {
  }

  /** The progress figures can be read back: "k/n étapes complétées" determines
      both k and n. */
  lemma ProgressReadBack(k: nat, n: nat, k': nat, n': nat)
    requires ProgressText(k, n) == ProgressText(k', n')
    ensures k == k' && n == n'
  {
    NumeralPrefixUnique(k, "/" + (DecimalString(n) + " étapes complétées\n"),
                        k', "/" + (DecimalString(n') + " étapes complétées\n"));
    var tail, tail' := "/" + (DecimalString(n) + " étapes complétées\n"), "/" + (DecimalString(n') + " étapes complétées\n");
    assert DecimalString(n) + " étapes complétées\n" == tail[1..];
    assert DecimalString(n') + " étapes complétées\n" == tail'[1..];
    NumeralPrefixUnique(n, " étapes complétées\n", n', " étapes complétées\n");
  }

  /** With steps in ascending step-number order, the current step has the
      smallest number among the open steps. */
  lemma CurrentStepIsLowestOpen(steps: seq<CaseStep>)
    requires forall i, j :: 0 <= i < j < |steps| ==> steps[i].stepNumber <= steps[j].stepNumber
    requires CurrentStep(steps).Some?
    ensures forall j :: 0 <= j < |steps| && IsOpen(steps[j]) ==>
      steps[CurrentStep(steps).value].stepNumber <= steps[j].stepNumber
  {
  }

  /** A case whose steps are all completed has no current step, and its progress
      reads n/n. */
  lemma FinishedCaseHasNoCurrentStep(steps: seq<CaseStep>)
    requires forall i :: 0 <= i < |steps| ==> steps[i].status == StepStatus.Completed
    ensures CurrentStep(steps).None?
    ensures CountCompleted(steps) == |steps|
  {
  }

  // ---------------------------------------------------------------------------
  // The route's answer.

  const UnavailableMessage := "Je suis désolé, le service de chat n'est pas disponible actuellement. Veuillez réessayer plus tard."
  const ErrorMessage := "Je suis désolé, une erreur s'est produite. Veuillez réessayer dans quelques instants."
  const UserNotFoundMessage := "Utilisateur introuvable"

  /** `message` is the body's `message` field (404) or its `response` field,
      which is `null` when the assistant's reply carries no text. */
  datatype ChatAnswer = ChatAnswer(status: nat, message: Option<string>)

  /** What the completion call gives back: it fails (a non-ok answer, or a body
      without a first choice, both of which throw), or it succeeds with the first
      choice's content, which may be `null`. */
  datatype ChatReply = Failed | Replied(content: Option<string>)

  /** POST, once the caller is authenticated. */
  function Chat(user: Option<ChatUser>, apiKey: Option<string>, reply: ChatReply): (r: ChatAnswer)
    ensures user.None? ==> r == ChatAnswer(404, Some(UserNotFoundMessage))
    ensures user.Some? && !Truthy(apiKey) ==> r == ChatAnswer(200, Some(UnavailableMessage))
    ensures user.Some? && Truthy(apiKey) && reply.Failed? ==> r == ChatAnswer(500, Some(ErrorMessage))
    ensures user.Some? && Truthy(apiKey) && reply.Replied? ==> r == ChatAnswer(200, reply.content)
  {
    if user.None? then ChatAnswer(404, Some(UserNotFoundMessage))
    else if !Truthy(apiKey) then ChatAnswer(200, Some(UnavailableMessage))
    else if reply.Failed? then ChatAnswer(500, Some(ErrorMessage))
    else ChatAnswer(200, reply.content)
  }

  /** Without a key the assistant is never consulted: its reply cannot change the answer. */
  lemma NoKeyIgnoresReply(user: Option<ChatUser>, apiKey: Option<string>, a: ChatReply, b: ChatReply)
    requires !Truthy(apiKey)
    ensures Chat(user, apiKey, a) == Chat(user, apiKey, b)
  {
  }

  /** The answer is 500 exactly when a known user with a key gets a failed call;
      a successful call with no text still answers 200, with a null response. */
  lemma ChatFailsOnlyOnFailedCall(user: Option<ChatUser>, apiKey: Option<string>, reply: ChatReply)
    ensures Chat(user, apiKey, reply).status == 500 <==> user.Some? && Truthy(apiKey) && reply.Failed?
    ensures Chat(user, apiKey, reply).message.None? <==> user.Some? && Truthy(apiKey) && reply == Replied(None)
  {
  }
}
