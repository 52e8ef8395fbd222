/** The content tables and prompt templates of constants.ts: the exercise
    catalogue, the random persona generator and the two prompts sent to the
    remote model. Every `Math.random()` draw is a parameter of type `Draw`.

    Long fixed texts sit in one table, `Text`, keyed by `TextKey`; the prompt
    properties are proved about the templates for any texts, and the
    concrete prompts are those templates applied to the table. */
module Content {
  import opened Util
  import opened Types

  datatype TextKey =
    | Title(exercise: ExerciseType) | Blurb(exercise: ExerciseType)
    | ScenarioContext(kind: ExerciseType)
    | PersonaQualified | PersonaDisqualified | PersonaQualifiedDifficult
    | DifficultyText(difficulty: Difficulty)
    | AdjustmentText(disc: DiscType)
    | SuffixQualification | SuffixEmotion | SuffixProposal | SuffixObjections
    | GoalQualification | GoalEmotion | GoalProposal | GoalObjections
    | SystemIntro | SystemAfterName | SystemAfterBrand | SystemAfterPhrase | SystemAfterPersona | SystemAfterDifficulty
    | AnalysisIntro | AnalysisAfterGoal

  /** The fixed texts of constants.ts. */
  function Text(k: TextKey): string {
    match k
    case Title(Qualify) => "Chamada de Qualificação"
    case Title(ColdQualify) => "Chamada Fria de Qualificação"
    case Title(Emotion) => "Reunião: Emocional"
    case Title(Proposal) => "Reunião: Apresentação de Proposta"
    case Title(Objections) => "Reunião: Gestão de Objeções"
    case Blurb(Qualify) => ("O lead preencheu um formulário no Facebook. Qualifique-o e " +
      "agende uma reunião.")
    case Blurb(ColdQualify) => ("O lead nunca ouviu falar de si. Capte a atenção, qualifique e " +
      "agende uma reunião.")
    case Blurb(Emotion) => ("Já tem uma reunião agendada. Crie rapport e descubra os sonhos " +
      "e medos do lead.")
    case Blurb(Proposal) => ("Apresente a sua proposta, ligando-a diretamente aos sonhos ou " +
      "medos do lead.")
    case Blurb(Objections) => ("O lead tem dúvidas sobre a proposta. Ultrapasse as objeções com " +
      "confiança.")
    case ScenarioContext(Qualify) => ("Este lead viu e preencheu um anúncio da Digital Revolution no " +
      "Facebook. Já demonstrou algum interesse na solução da empresa.")
    case ScenarioContext(ColdQualify) => ("Este lead nunca ouviu falar da Digital Revolution e não " +
      "interagiu com a marca. Está a ser apanhado de surpresa.")
    case ScenarioContext(Emotion) => ("Uma reunião já foi agendada recentemente. O objetivo do " +
      "vendedor é construir uma relação e identificar medos ou sonhos.")
    case ScenarioContext(Proposal) => ("O vendedor já conhece os medos e sonhos do lead e deve agora " +
      "apresentar a proposta, ligando os benefícios a esses pontos.")
    case ScenarioContext(Objections) => ("O lead tem objeções sobre a proposta. O vendedor tem de ser " +
      "capaz de as ultrapassar para que deixem de existir.")
    case PersonaQualified => ("Você é um consultor imobiliário com vontade de crescer. Você " +
      "está aberto a novas tecnologias para conseguir mais leads, mas " +
      "é um pouco ocupado. Você é um lead qualificado.")
    case PersonaDisqualified => ("Você é um consultor imobiliário muito cético em relação a " +
      "marketing digital e acredita apenas em métodos tradicionais. " +
      "Você é um lead desqualificado.")
    case PersonaQualifiedDifficult => ("Você é um consultor imobiliário de sucesso. Já tentou marketing " +
      "digital no passado sem sucesso e está muito desconfiado de " +
      "agências. No entanto, sabe que precisa de ajuda. Você é um lead " +
      "qualificado, mas difícil de convencer.")
    case DifficultyText(Easy) => ("Aja de forma relativamente cooperativa e aberta. Faça perguntas " +
      "simples.")
    case DifficultyText(Medium) => ("Mostre algum ceticismo e pressa. Faça perguntas mais " +
      "desafiadoras sobre o ROI e a eficácia.")
    case DifficultyText(Difficult) => ("Seja muito cético, desconfiado e impaciente. Interrompa o " +
      "vendedor e coloque objeções fortes e frequentes.")
    case AdjustmentText(D) => ("O vendedor tem um perfil Dominante. Para o desafiar, seja um " +
      "lead 'Estável' (S): seja lento a decidir, mostre insegurança, " +
      "foque muito nas pessoas e na harmonia da equipa, evite " +
      "conflitos e resista a mudanças bruscas. Seja passivo-agressivo " +
      "se ele for muito direto.")
    case AdjustmentText(I) => ("O vendedor tem um perfil Influente. Para o desafiar, seja um " +
      "lead 'Conforme' (C): seja extremamente frio, exija dados, " +
      "factos e provas por escrito. Não responda a piadas ou " +
      "tentativas de rapport emocional. Seja monossilábico e focado " +
      "apenas no detalhe técnico e no contrato.")
    case AdjustmentText(S) => ("O vendedor tem um perfil Estável. Para o desafiar, seja um lead " +
      "'Dominante' (D): seja impaciente, arrogante, interrompa " +
      "constantemente e exija saber 'o que ganho com isto' em 10 " +
      "segundos. Pressione-o por decisões rápidas e use um tom de voz " +
      "autoritário.")
    case AdjustmentText(C) => ("O vendedor tem um perfil Conforme. Para o desafiar, seja um " +
      "lead 'Influente' (I): seja desorganizado, emocional, mude de " +
      "assunto constantemente e tome decisões baseadas no 'feeling' e " +
      "não nos dados que ele apresenta. Ignore as planilhas dele e " +
      "fale sobre o churrasco do fim de semana.")
    case SuffixQualification => ("O objetivo do vendedor é qualificar você (rendimento > 50k, > 1 " +
      "ano experiência, aberto ao digital), criar curiosidade e marcar " +
      "uma reunião. Reaja de acordo com o seu perfil.")
    case SuffixEmotion => ("O objetivo do vendedor é descobrir os seus sonhos profissionais " +
      "(ex: mais tempo livre, reconhecimento) e medos (ex: perder para " +
      "a concorrência, instabilidade). Só partilhe estas emoções se o " +
      "vendedor criar um ambiente de confiança.")
    case SuffixProposal => ("O vendedor irá apresentar a proposta da 'Digital Revolution'. " +
      "Ouça atentamente, mas faça perguntas críticas sobre os " +
      "detalhes, custos e garantias.")
    case SuffixObjections => ("O seu papel é levantar objeções comuns como 'É muito caro', " +
      "'Não tenho tempo para isso', 'Já trabalho com outra pessoa', " +
      "'Não acredito que funcione'. Seja persistente nas suas objeções.")
    case GoalQualification => ("Qualificar o lead (rendimento > 50k, > 1 ano de experiência, " +
      "abertura ao digital), estimular a curiosidade, construir " +
      "rapport e agendar uma reunião (se qualificado).")
    case GoalEmotion => ("Descobrir os sonhos e medos do cliente, criando uma conexão " +
      "emocional profunda.")
    case GoalProposal => ("Apresentar a proposta da Digital Revolution de forma clara, " +
      "persuasiva e focada nos benefícios para o cliente.")
    case GoalObjections => ("Responder eficazmente às objeções do cliente, mantendo o " +
      "controlo da conversa e avançando para o fecho.")
    case SystemIntro => ("Você é um agente de IA a simular um roleplay em Português de " +
      "Portugal.\nO utilizador é um vendedor da 'Digital Revolution', " +
      "uma agência de marketing e vendas para consultores " +
      "imobiliários.\nVocê representa ")
    case SystemAfterName => ", um(a) consultor(a) imobiliário(a) da "
    case SystemAfterBrand => (". A sua missão é agir de acordo com o seu perfil, o cenário e o " +
      "nível de dificuldade definidos.\nResponda de forma natural, " +
      "como se estivesse numa chamada telefónica. Use pausas e " +
      "interjeições.\nNão revele que é uma IA ou que está a seguir um " +
      "guião. Não mencione os detalhes do seu perfil (rendimento, " +
      "experiência, etc.) a menos que o vendedor pergunte diretamente " +
      "e de forma apropriada.\n\nA sua PRIMEIRA FALA nesta conversa " +
      "tem de ser EXATAMENTE, e APENAS, a seguinte frase: \"")
    case SystemAfterPhrase => ("\"\nNão adicione NADA antes ou depois desta frase na sua " +
      "primeira resposta. Depois da sua primeira fala, aguarde pela " +
      "resposta do vendedor.\n\nPerfil de Comportamento: ")
    case SystemAfterPersona => "\nNível de Dificuldade: "
    case SystemAfterDifficulty => "\n\nADAPTAÇÃO ESTRATÉGICA DISC:\n"
    case AnalysisIntro => ("\n      Você é um coach de vendas especialista e rigoroso. " +
      "Analise a seguinte transcrição de uma chamada de roleplay em " +
      "Português de Portugal.\n      Objetivo do vendedor: ")
    case AnalysisAfterGoal => ("\n\n      Avalie o desempenho do vendedor e forneça o seguinte " +
      "resultado num único bloco de código JSON:\n      {\n        " +
      "\"score\": <0-100>,\n        \"isQualified\": " +
      "<boolean>,\n        \"summary\": \"<Resumo executivo de 1 " +
      "parágrafo sobre a chamada>\",\n        \"failedPoints\": " +
      "[\"<Ponto específico onde o vendedor falhou ou foi fraco>\", " +
      "\"...\"],\n        \"nextSteps\": [\"<Ponto de atenção ou " +
      "técnica a aplicar no próximo treino para melhorar>\", " +
      "\"...\"]\n      }\n\n      Seja extremamente crítico nos " +
      "'failedPoints'. Identifique frases mal ditas, hesitações, falta " +
      "de perguntas de qualificação ou perda de controlo da " +
      "chamada.\n      Nos 'nextSteps', forneça conselhos práticos e " +
      "táticos.\n\n      Transcrição:\n      ")
  }

  /** The identifier a catalogue entry carries. */
  function ExerciseId(t: ExerciseType): string {
    match t
    case Qualify => "qualify"
    case ColdQualify => "cold_qualify"
    case Emotion => "emotion"
    case Proposal => "proposal"
    case Objections => "objections"
  }

  /** The catalogue entry of one exercise type. */
  function ExerciseOf(t: ExerciseType): Exercise {
    Exercise(ExerciseId(t), t, Text(Title(t)), Text(Blurb(t)))
  }

  /** Distinct catalogue entries have distinct identifiers. */
  lemma ExerciseIdInjective(a: ExerciseType, b: ExerciseType)
    ensures ExerciseOf(a).id == ExerciseOf(b).id <==> a == b
  {
    if a != b {
      assert ExerciseId(a)[0] != ExerciseId(b)[0];
    }
  }

  /** The order of the catalogue, `EXERCISES`; entry `i` is `ExerciseOf(EXERCISE_KINDS[i])`. */
  const EXERCISE_KINDS: seq<ExerciseType> := [Qualify, ColdQualify, Emotion, Proposal, Objections]

  function KindIndex(t: ExerciseType): (i: nat)
    ensures i < |EXERCISE_KINDS| && EXERCISE_KINDS[i] == t
  {
    match t
    case Qualify => 0
    case ColdQualify => 1
    case Emotion => 2
    case Proposal => 3
    case Objections => 4
  }

  /** The catalogue lists every exercise type exactly once. */
  lemma ExercisesTable(i: nat, j: nat)
    requires i < |EXERCISE_KINDS| && j < |EXERCISE_KINDS|
    ensures KindIndex(EXERCISE_KINDS[i]) == i
    ensures EXERCISE_KINDS[i] == EXERCISE_KINDS[j] ==> i == j
  {
  }

  const MALE_NAMES: seq<string> := ["João Silva", "Pedro Martins", "Miguel Pereira", "Rui Almeida", "Tiago Santos"]
  const FEMALE_NAMES: seq<string> := ["Ana Costa", "Sofia Alves", "Catarina Santos", "Mariana Ferreira", "Inês Rodrigues"]
  const BRANDS: seq<string> := ["RE/MAX Vantagem", "Century 21", "ERA Imobiliária", "KW Lead", "Zome", "IAD Portugal"]
  const EXPERIENCES: seq<string> := ["1 ano", "3 anos", "5 anos", "8 anos", "10 anos"]
  const REVENUES: seq<string> := ["€60,000", "€85,000", "€120,000", "€45,000", "€250,000"]
  const PROPERTIES_VOLUMES: seq<string> := ["15 por ano", "25 por ano", "10 por ano", "40 por ano"]
  const DIGITAL_ADOPTION_LEVELS: seq<string> := ["Iniciante", "Intermédio", "Cético", "Experiente"]
  const DREAMS_FEARS: seq<string> := [("Medo de ficar para trás da concorrência"), ("Sonho de ter mais tempo livre para a família"), ("Medo da instabilidade do mercado"), ("Sonho de ser o consultor número 1 da sua zona")]

  /** One value of `Math.random()`. */
  type Draw = u: real | 0.0 <= u < 1.0

  /** `Math.floor(u * n)`: an index into an array of length `n`. */
  function RandomIndex(n: nat, u: Draw): (k: nat)
    requires n > 0
    ensures k < n
  {
    var x := u * n as real;
    assert 0.0 <= x < n as real by {
      assert u * n as real <= 1.0 * n as real;
      assert u * n as real < n as real;
    }
    x.Floor
  }

  /** `getRandom`: always a member of the array it draws from. */
  function GetRandom<T>(arr: seq<T>, u: Draw): (r: T)
    requires |arr| > 0
    ensures r in arr
  {
    arr[RandomIndex(|arr|, u)]
  }

  /** The independent draws `generateScenarioData` makes, one per call of `Math.random()`. */
  datatype ScenarioDraws = ScenarioDraws(
    gender: Draw, name: Draw, brand: Draw, experience: Draw, revenue: Draw,
    properties: Draw, adoption: Draw, dreamOrFear: Draw)

  function GenderOf(u: Draw): (g: Gender)
    ensures g == Male <==> u > 0.5
  {
    if u > 0.5 then Male else Female
  }

  function NamesFor(g: Gender): seq<string> {
    match g
    case Male => MALE_NAMES
    case Female => FEMALE_NAMES
  }

  const AVATAR_BASE: string := "https://avatar.iran.liara.run/public/"

  function AvatarKind(g: Gender): string {
    match g
    case Male => "boy"
    case Female => "girl"
  }

  const QUALIFY_PHRASE: string := "Alô?"

  /** A random persona for the exercise. `encodeUri` stands for `encodeURIComponent`. */
  function GenerateScenarioData(kind: ExerciseType, draws: ScenarioDraws, encodeUri: string -> string): (sc: ScenarioData)
    ensures sc.gender == GenderOf(draws.gender)
    ensures sc.name in NamesFor(sc.gender)
    ensures sc.avatarUrl == AVATAR_BASE + AvatarKind(sc.gender) + "?username=" + encodeUri(sc.name)
    ensures sc.brand.Some? && sc.brand.value in BRANDS
    ensures sc.experience.Some? <==> kind != ColdQualify
    ensures sc.experience.Some? ==> sc.experience.value in EXPERIENCES
    ensures sc.revenue.Some? <==> kind != ColdQualify
    ensures sc.revenue.Some? ==> sc.revenue.value in REVENUES
    ensures sc.propertiesAcquired.Some? <==> kind == ColdQualify
    ensures sc.propertiesAcquired.Some? ==> sc.propertiesAcquired.value in PROPERTIES_VOLUMES
    ensures sc.digitalAdoption.Some? <==> kind == Emotion
    ensures sc.digitalAdoption.Some? ==> sc.digitalAdoption.value in DIGITAL_ADOPTION_LEVELS
    ensures sc.dreamOrFear.Some? <==> (kind == Proposal || kind == Objections)
    ensures sc.dreamOrFear.Some? ==> sc.dreamOrFear.value in DREAMS_FEARS
    ensures (kind == Qualify || kind == ColdQualify) ==> sc.initialPhrase == QUALIFY_PHRASE
    ensures sc.context == Text(ScenarioContext(kind))
  {
    var gender := GenderOf(draws.gender);
    var name := GetRandom(NamesFor(gender), draws.name);
    var avatarUrl := AVATAR_BASE + AvatarKind(gender) + "?username=" + encodeUri(name);
    var brand := Some(GetRandom(BRANDS, draws.brand));
    var experience := Some(GetRandom(EXPERIENCES, draws.experience));
    var revenue := Some(GetRandom(REVENUES, draws.revenue));
    var context := Text(ScenarioContext(kind));
    match kind
    case Qualify =>
      ScenarioData(name, gender, avatarUrl, experience, revenue, brand, None, None, None, QUALIFY_PHRASE, context)
    case ColdQualify =>
      ScenarioData(name, gender, avatarUrl, None, None, brand,
        Some(GetRandom(PROPERTIES_VOLUMES, draws.properties)), None, None, QUALIFY_PHRASE, context)
    case Emotion =>
      ScenarioData(name, gender, avatarUrl, experience, revenue, brand, None,
        Some(GetRandom(DIGITAL_ADOPTION_LEVELS, draws.adoption)), None, ("Olá, vamos começar a nossa reunião então?"), context)
    case Proposal =>
      ScenarioData(name, gender, avatarUrl, experience, revenue, brand, None, None,
        Some(GetRandom(DREAMS_FEARS, draws.dreamOrFear)), ("Ok, eu percebo, mas como é que me pode ajudar com isto?"), context)
    case Objections =>
      ScenarioData(name, gender, avatarUrl, experience, revenue, brand, None, None,
        Some(GetRandom(DREAMS_FEARS, draws.dreamOrFear)), ("Ok, eu percebo, mas tenho algumas dúvidas..."), context)
  }

  /** `Object.values(SCENARIO_PERSONAS)`, in declaration order. */
  const SCENARIO_PERSONAS: seq<TextKey> := [PersonaQualified, PersonaDisqualified, PersonaQualifiedDifficult]

  function DifficultyModifier(d: Difficulty): string {
    Text(DifficultyText(d))
  }

  /** `getDiscAdjustment`: no text without a profile, otherwise the fixed text of the profile's type. */
  function DiscAdjustment(t: Option<DiscType>): (r: string)
    ensures t.None? ==> r == ""
    ensures t.Some? ==> r == Text(AdjustmentText(t.value))
  {
    match t
    case None => ""
    case Some(d) => Text(AdjustmentText(d))
  }

  /** `s` holds `t` at offset `i`. */
  predicate ContainsAt(s: string, t: string, i: nat) {
    i + |t| <= |s| && s[i..i + |t|] == t
  }

  predicate Contains(s: string, t: string) {
    exists i: nat :: i <= |s| && ContainsAt(s, t, i)
  }

  lemma ContainsHead(t: string, y: string)
    ensures Contains(t + y, t)
  {
    assert (t + y)[0..|t|] == t;
    assert ContainsAt(t + y, t, 0);
  }

  lemma ContainsExtend(x: string, y: string, t: string)
    requires Contains(y, t)
    ensures Contains(x + y, t)
  {
    var i: nat :| i <= |y| && ContainsAt(y, t, i);
    assert (x + y)[|x| + i..|x| + i + |t|] == y[i..i + |t|];
    assert ContainsAt(x + y, t, |x| + i);
  }

  function BrandText(brand: Option<string>): string {
    // a template literal prints an absent field as "undefined"
    brand.GetOr("undefined")
  }

  function UserDisc(user: Option<User>): Option<DiscType> {
    match user
    case Some(u) =>
      (match u.discProfile
       case Some(p) => Some(p.kind)
       case None => None)
    case None => None
  }

  /** The fixed pieces of the system-instruction template, between its placeholders. */
  datatype SystemFrame = SystemFrame(
    intro: string, afterName: string, afterBrand: string, afterPhrase: string,
    afterPersona: string, afterDifficulty: string)

  const SYSTEM_FRAME: SystemFrame := SystemFrame(
    Text(SystemIntro), Text(SystemAfterName), Text(SystemAfterBrand), Text(SystemAfterPhrase),
    Text(SystemAfterPersona), Text(SystemAfterDifficulty))

  /** The part of the system instruction shared by every exercise type. */
  function SystemBase(f: SystemFrame, sc: ScenarioData, persona: string, modifier: string, adjustment: string): string {
    f.intro + (sc.name + (f.afterName + (BrandText(sc.brand) + (f.afterBrand + (sc.initialPhrase
    + (f.afterPhrase + (persona + (f.afterPersona + (modifier + (f.afterDifficulty + (adjustment + "\n")))))))))))
  }

  /** The base quotes the lead's name, the opening phrase, the persona,
      the difficulty text and the DISC text verbatim. */
  lemma SystemBaseQuotes(f: SystemFrame, sc: ScenarioData, persona: string, modifier: string, adjustment: string)
    ensures Contains(SystemBase(f, sc, persona, modifier, adjustment), sc.name)
    ensures Contains(SystemBase(f, sc, persona, modifier, adjustment), sc.initialPhrase)
    ensures Contains(SystemBase(f, sc, persona, modifier, adjustment), persona)
    ensures Contains(SystemBase(f, sc, persona, modifier, adjustment), modifier)
    ensures Contains(SystemBase(f, sc, persona, modifier, adjustment), adjustment)
  {
    var r6 := adjustment + "\n";
    ContainsHead(adjustment, "\n");
    var r5 := f.afterDifficulty + r6;
    ContainsExtend(f.afterDifficulty, r6, adjustment);
    var r4 := modifier + r5;
    ContainsHead(modifier, r5);
    ContainsExtend(modifier, r5, adjustment);
    var r3 := f.afterPersona + r4;
    ContainsExtend(f.afterPersona, r4, modifier);
    ContainsExtend(f.afterPersona, r4, adjustment);
    var r2 := persona + r3;
    ContainsHead(persona, r3);
    ContainsExtend(persona, r3, modifier);
    ContainsExtend(persona, r3, adjustment);
    var r1 := f.afterPhrase + r2;
    ContainsExtend(f.afterPhrase, r2, persona);
    ContainsExtend(f.afterPhrase, r2, modifier);
    ContainsExtend(f.afterPhrase, r2, adjustment);
    var q := sc.initialPhrase + r1;
    ContainsHead(sc.initialPhrase, r1);
    ContainsExtend(sc.initialPhrase, r1, persona);
    ContainsExtend(sc.initialPhrase, r1, modifier);
    ContainsExtend(sc.initialPhrase, r1, adjustment);
    var m := f.afterName + (BrandText(sc.brand) + (f.afterBrand + q));
    QuotedAlong(f.afterName, BrandText(sc.brand), f.afterBrand, q, sc.initialPhrase, persona, modifier, adjustment);
    var n := sc.name + m;
    ContainsHead(sc.name, m);
    ContainsExtend(sc.name, m, sc.initialPhrase);
    ContainsExtend(sc.name, m, persona);
    ContainsExtend(sc.name, m, modifier);
    ContainsExtend(sc.name, m, adjustment);
    ContainsExtend(f.intro, n, sc.name);
    ContainsExtend(f.intro, n, sc.initialPhrase);
    ContainsExtend(f.intro, n, persona);
    ContainsExtend(f.intro, n, modifier);
    ContainsExtend(f.intro, n, adjustment);
  }

  /** Carries four quoted texts of `q` out to `a + (b + (c + q))`. */
  lemma QuotedAlong(a: string, b: string, c: string, q: string, t1: string, t2: string, t3: string, t4: string)
    requires Contains(q, t1) && Contains(q, t2) && Contains(q, t3) && Contains(q, t4)
    ensures Contains(a + (b + (c + q)), t1) && Contains(a + (b + (c + q)), t2)
    ensures Contains(a + (b + (c + q)), t3) && Contains(a + (b + (c + q)), t4)
  {
    ContainsExtend(c, q, t1); ContainsExtend(b, c + q, t1); ContainsExtend(a, b + (c + q), t1);
    ContainsExtend(c, q, t2); ContainsExtend(b, c + q, t2); ContainsExtend(a, b + (c + q), t2);
    ContainsExtend(c, q, t3); ContainsExtend(b, c + q, t3); ContainsExtend(a, b + (c + q), t3);
    ContainsExtend(c, q, t4); ContainsExtend(b, c + q, t4); ContainsExtend(a, b + (c + q), t4);
  }

  /** A quoted text stays quoted when more text follows. */
  lemma ContainsPrefixOf(x: string, y: string, t: string)
    requires Contains(x, t)
    ensures Contains(x + y, t)
  {
    var i: nat :| i <= |x| && ContainsAt(x, t, i);
    assert (x + y)[i..i + |t|] == x[i..i + |t|];
    assert ContainsAt(x + y, t, i);
  }

  /** The template: the shared base, then the exercise's suffix. */
  function SystemPromptFrom(f: SystemFrame, sc: ScenarioData, persona: string, modifier: string, adjustment: string, suffix: string): (r: string)
    ensures Contains(r, sc.name)
    ensures Contains(r, sc.initialPhrase)
    ensures Contains(r, persona)
    ensures Contains(r, modifier)
    ensures Contains(r, adjustment)
    ensures |suffix| <= |r| && r[|r| - |suffix|..] == suffix
    ensures r[..|r| - |suffix|] == SystemBase(f, sc, persona, modifier, adjustment)
  {
    var base := SystemBase(f, sc, persona, modifier, adjustment);
    SystemBaseQuotes(f, sc, persona, modifier, adjustment);
    ContainsPrefixOf(base, suffix, sc.name);
    ContainsPrefixOf(base, suffix, sc.initialPhrase);
    ContainsPrefixOf(base, suffix, persona);
    ContainsPrefixOf(base, suffix, modifier);
    ContainsPrefixOf(base, suffix, adjustment);
    assert (base + suffix)[..|base|] == base;
    base + suffix
  }

  /** The two qualification calls, which share their prompt texts. */
  predicate QualifyKind(kind: ExerciseType) {
    kind == Qualify || kind == ColdQualify
  }

  function SuffixKey(kind: ExerciseType): TextKey {
    match kind
    case Qualify => SuffixQualification
    case ColdQualify => SuffixQualification
    case Emotion => SuffixEmotion
    case Proposal => SuffixProposal
    case Objections => SuffixObjections
  }

  /** QUALIFY and COLD_QUALIFY share one suffix; every other type has its own. */
  lemma SuffixKeyShared(a: ExerciseType, b: ExerciseType)
    ensures SuffixKey(a) == SuffixKey(b) <==> a == b || (QualifyKind(a) && QualifyKind(b))
  {
  }

  function PromptSuffix(kind: ExerciseType): string {
    Text(SuffixKey(kind))
  }

  /** `generateSystemPrompt`. `persona` is the draw that picks one of the three personas. */
  function GenerateSystemPrompt(exercise: Exercise, difficulty: Difficulty, sc: ScenarioData, user: Option<User>, persona: Draw): (r: string)
    ensures Contains(r, sc.initialPhrase)
    ensures Contains(r, sc.name)
    ensures Contains(r, Text(SCENARIO_PERSONAS[RandomIndex(3, persona)]))
    ensures Contains(r, DifficultyModifier(difficulty))
    ensures Contains(r, DiscAdjustment(UserDisc(user)))
    ensures |PromptSuffix(exercise.kind)| <= |r| && r[|r| - |PromptSuffix(exercise.kind)|..] == PromptSuffix(exercise.kind)
    ensures r[..|r| - |PromptSuffix(exercise.kind)|]
      == SystemBase(SYSTEM_FRAME, sc, Text(SCENARIO_PERSONAS[RandomIndex(3, persona)]), DifficultyModifier(difficulty), DiscAdjustment(UserDisc(user)))
  {
    SystemPromptFrom(SYSTEM_FRAME, sc, Text(SCENARIO_PERSONAS[RandomIndex(3, persona)]), DifficultyModifier(difficulty),
      DiscAdjustment(UserDisc(user)), PromptSuffix(exercise.kind))
  }

  function GoalKey(kind: ExerciseType): TextKey {
    match kind
    case Qualify => GoalQualification
    case ColdQualify => GoalQualification
    case Emotion => GoalEmotion
    case Proposal => GoalProposal
    case Objections => GoalObjections
  }

  /** QUALIFY and COLD_QUALIFY share one goal; every other type has its own. */
  lemma GoalKeyShared(a: ExerciseType, b: ExerciseType)
    ensures GoalKey(a) == GoalKey(b) <==> a == b || (QualifyKind(a) && QualifyKind(b))
  {
  }

  /** The exercise goal stated in the scoring prompt. */
  function ExerciseGoals(kind: ExerciseType): string {
    Text(GoalKey(kind))
  }

  const ANALYSIS_TAIL: string := "\n    "

  /** The scoring template: a header that names the goal and does not depend on the transcript, then the transcript. */
  function AnalysisPromptFrom(intro: string, afterGoal: string, goal: string, transcript: string): (r: string)
    ensures Contains(r, goal)
    ensures |transcript| + |ANALYSIS_TAIL| <= |r|
    ensures r[|r| - |ANALYSIS_TAIL| - |transcript|..|r| - |ANALYSIS_TAIL|] == transcript
    ensures r[|r| - |ANALYSIS_TAIL|..] == ANALYSIS_TAIL
    ensures r[..|r| - |ANALYSIS_TAIL| - |transcript|] == intro + goal + afterGoal
  {
    var header := intro + goal + afterGoal;
    var r := header + transcript + ANALYSIS_TAIL;
    ContainsHead(goal, afterGoal);
    ContainsExtend(intro, goal + afterGoal, goal);
    assert intro + (goal + afterGoal) == header;
    ContainsPrefixOf(header, transcript + ANALYSIS_TAIL, goal);
    assert r == header + (transcript + ANALYSIS_TAIL);
    assert r[..|header|] == header;
    assert r[|header|..|header| + |transcript|] == transcript;
    r
  }

  /** `generateAnalysisPrompt`. */
  function GenerateAnalysisPrompt(transcript: string, exercise: Exercise): (r: string)
    ensures Contains(r, ExerciseGoals(exercise.kind))
    ensures |transcript| + |ANALYSIS_TAIL| <= |r|
    ensures r[|r| - |ANALYSIS_TAIL| - |transcript|..|r| - |ANALYSIS_TAIL|] == transcript
    ensures r[|r| - |ANALYSIS_TAIL|..] == ANALYSIS_TAIL
    ensures r[..|r| - |ANALYSIS_TAIL| - |transcript|] == Text(AnalysisIntro) + ExerciseGoals(exercise.kind) + Text(AnalysisAfterGoal)
  {
    AnalysisPromptFrom(Text(AnalysisIntro), Text(AnalysisAfterGoal), ExerciseGoals(exercise.kind), transcript)
  }
}
