/** The behavioural quiz of DiscTestModal.tsx: ten questions with one answer
    per DISC type each, and the profile named after the type the answers favour. */
module DiscQuiz {
  import opened Util
  import opened Types

  /** The question texts, in order. */
  function QuestionText(i: nat): string {
    match i
    case 0 => ("Quando entra numa primeira chamada com um lead, qual é o seu " +
      "foco principal?")
    case 1 => "Como reage perante um lead muito agressivo ou cético?"
    case 2 => "Ao apresentar uma proposta, você prefere..."
    case 3 => "Qual é a sua maior força em vendas?"
    case 4 => "O que mais o irrita durante uma negociação?"
    case 5 => "Como organiza o seu dia de prospecção?"
    case 6 => "Numa reunião de equipa, você é a pessoa que..."
    case 7 => "Quando um cliente diz 'É muito caro', a sua resposta inicial é:"
    case 8 => "Qual o seu maior medo profissional?"
    case 9 => "Para si, o sucesso nas vendas define-se por:"
    case _ => ""
  }

  /** The text of answer `j` of question `i`. */
  function OptionText(i: nat, j: nat): string {
    match i
    case 0 =>
      (match j
      case 0 => "Chegar ao ponto o mais rápido possível e marcar a reunião."
      case 1 => "Criar uma ligação e deixar o cliente à vontade com humor."
      case 2 => "Ouvir pacientemente e transmitir segurança e confiança."
      case 3 => "Seguir o meu guião e anotar todos os dados técnicos."
      case _ => "")
    case 1 =>
      (match j
      case 0 => "Mantenho a minha posição e respondo com autoridade."
      case 1 => "Tento desarmá-lo com simpatia e boa energia."
      case 2 => "Mantenho a calma e tento compreender a origem da dúvida."
      case 3 => "Apresento factos e provas lógicas para rebater o ceticismo."
      case _ => "")
    case 2 =>
      (match j
      case 0 => "Falar dos ganhos financeiros e do ROI imediato."
      case 1 => "Contar histórias de sucesso de outros clientes."
      case 2 => "Explicar como o processo será seguro e sem riscos."
      case 3 => "Detalhar cada etapa técnica e os pormenores do contrato."
      case _ => "")
    case 3 =>
      (match j
      case 0 => "O meu poder de fecho e insistência."
      case 1 => "A minha capacidade de persuasão e carisma."
      case 2 => "A minha lealdade e o serviço ao cliente."
      case 3 => "A minha organização e precisão na informação."
      case _ => "")
    case 4 =>
      (match j
      case 0 => "Pessoas que demoram muito tempo a decidir."
      case 1 => "Pessoas que são muito frias e sem emoção."
      case 2 => "Conflitos desnecessários ou falta de educação."
      case 3 => "Falta de lógica ou erros nos dados apresentados."
      case _ => "")
    case 5 =>
      (match j
      case 0 => "Ataco os leads mais difíceis primeiro para ganhar o dia."
      case 1 => "Vou fazendo as chamadas conforme a minha energia."
      case 2 => "Sigo uma rotina consistente e previsível."
      case 3 => "Tenho um CRM impecável com lembretes para tudo."
      case _ => "")
    case 6 =>
      (match j
      case 0 => "Diz o que tem de ser feito para atingir as metas."
      case 1 => "Anima o grupo e traz novas ideias criativas."
      case 2 => "Ouve todos e ajuda a manter a paz no grupo."
      case 3 => "Analisa o que correu mal e propõe melhorias baseadas em factos."
      case _ => "")
    case 7 =>
      (match j
      case 0 => "'Comparado com o quê?' - Desafio direto."
      case 1 => "'Pense no valor que isto vai trazer à sua vida!'"
      case 2 => "'Eu percebo, vamos ver como podemos ajustar para si.'"
      case 3 => "'Deixe-me mostrar-lhe o detalhe de onde vem o investimento.'"
      case _ => "")
    case 8 =>
      (match j
      case 0 => "Perder o controlo ou fracassar perante a concorrência."
      case 1 => "Ser rejeitado ou não ser admirado pelos outros."
      case 2 => "Mudanças repentinas que tragam instabilidade."
      case 3 => "Cometer erros ou ser criticado por falta de rigor."
      case _ => "")
    case 9 =>
      (match j
      case 0 => "Ser o número 1 no ranking de faturação."
      case 1 => "Ter uma rede imensa de contactos que gostam de mim."
      case 2 => "Ter clientes satisfeitos que me recomendam há anos."
      case 3 => "Cumprir todos os processos com excelência e qualidade."
      case _ => "")
    case _ => ""
  }

  /** The order in which every question lists its answers, and in which the tally is scanned. */
  const DISC_ORDER: seq<DiscType> := [D, I, S, C]

  /** The position of a type in `DISC_ORDER`. */
  function OrderIndex(t: DiscType): (i: nat)
    ensures i < |DISC_ORDER| && DISC_ORDER[i] == t
  {
    match t
    case D => 0
    case I => 1
    case S => 2
    case C => 3
  }

  datatype Choice = Choice(text: string, kind: DiscType)

  datatype Question = Question(prompt: string, options: seq<Choice>)

  function QuestionAt(i: nat): Question {
    Question(QuestionText(i), seq(4, j requires 0 <= j < 4 => Choice(OptionText(i, j), DISC_ORDER[j])))
  }

  /** `QUESTIONS`. */
  function Questions(): seq<Question> {
    seq(10, i requires 0 <= i < 10 => QuestionAt(i))
  }

  /** Ten questions, each offering a D, an I, an S and a C answer in that order. */
  lemma QuestionsShape(i: nat, j: nat)
    requires i < |Questions()| && j < 4
    ensures |Questions()| == 10
    ensures |Questions()[i].options| == 4
    ensures Questions()[i].options[j].kind == DISC_ORDER[j]
  {
  }

  datatype DiscInfo = DiscInfo(labelText: string, desc: string, strategy: string)

  /** `DISC_INFO`. */
  function Info(t: DiscType): DiscInfo {
    match t
    case D => DiscInfo("Dominante", ("Você é direto, focado em resultados e prefere rapidez. Gosta de " +
      "controlar a conversa."), ("Para o desafiar, os nossos agentes de IA serão mais 'Estáveis' " +
        "(S) - lentos a decidir, indecisos e focados em emoções, " +
        "forçando-o a trabalhar a paciência."))
    case I => DiscInfo("Influente", ("Você é comunicativo, entusiasta e focado em pessoas. Usa o " +
      "carisma para vender."), ("Para o desafiar, os nossos agentes serão mais 'Conformes' (C) - " +
        "frios, monossilábicos e obcecados por dados técnicos, " +
        "forçando-o a sair do rapport emocional."))
    case S => DiscInfo("Estável", ("Você é paciente, bom ouvinte e focado na harmonia. Transmite " +
      "segurança."), ("Para o desafiar, os nossos agentes serão mais 'Dominantes' (D) " +
        "- impacientes, agressivos e autoritários, forçando-o a ser mais " +
        "assertivo e rápido."))
    case C => DiscInfo("Conforme", ("Você é analítico, preciso e focado na qualidade e nos factos."), ("Para o desafiar, os nossos agentes serão mais 'Influentes' (I) " +
        "- desorganizados, emocionais e baseados em 'gut feeling', " +
        "forçando-o a vender além dos dados técnicos."))
  }

  /** How many of the answers are of type `t`. */
  function Occurrences(a: seq<DiscType>, t: DiscType): nat {
    if a == [] then 0
    else Occurrences(a[..|a| - 1], t) + (if a[|a| - 1] == t then 1 else 0)
  }

  /** Every answer is tallied under exactly one type. */
  lemma {:induction false} TallySum(a: seq<DiscType>)
    ensures Occurrences(a, D) + Occurrences(a, I) + Occurrences(a, S) + Occurrences(a, C) == |a|
  {
    if a != [] {
      TallySum(a[..|a| - 1]);
    }
  }

  /** The leading type and its count after the scan has looked at the first `k` types of `DISC_ORDER`,
      replacing the leader only on a strictly greater count. */
  function Leader(a: seq<DiscType>, k: nat): (DiscType, nat)
    requires k <= |DISC_ORDER|
  {
    if k == 0 then (D, 0)
    else
      var (t, m) := Leader(a, k - 1);
      var c := Occurrences(a, DISC_ORDER[k - 1]);
      if c > m then (DISC_ORDER[k - 1], c) else (t, m)
  }

  /** After at least one step the leader holds the highest count seen so far,
      and every type scanned before it has a strictly lower count. */
  lemma {:induction false} LeaderIsFirstMaximum(a: seq<DiscType>, k: nat)
    requires 1 <= k <= |DISC_ORDER|
    ensures Leader(a, k).1 == Occurrences(a, Leader(a, k).0)
    ensures OrderIndex(Leader(a, k).0) < k
    ensures forall j :: 0 <= j < k ==> Occurrences(a, DISC_ORDER[j]) <= Leader(a, k).1
    ensures forall j :: 0 <= j < OrderIndex(Leader(a, k).0) ==> Occurrences(a, DISC_ORDER[j]) < Leader(a, k).1
  {
    if k > 1 {
      LeaderIsFirstMaximum(a, k - 1);
    }
  }

  /** The type the quiz assigns. */
  function Winner(a: seq<DiscType>): DiscType {
    Leader(a, |DISC_ORDER|).0
  }

  /** The winner has the highest count, every type before it in D, I, S, C order has
      a strictly lower one, and with no answers the winner is D. */
  lemma WinnerIsFirstMaximum(a: seq<DiscType>)
    ensures forall t :: Occurrences(a, t) <= Occurrences(a, Winner(a))
    ensures forall t :: OrderIndex(t) < OrderIndex(Winner(a)) ==> Occurrences(a, t) < Occurrences(a, Winner(a))
    ensures a == [] ==> Winner(a) == D
  {
    LeaderIsFirstMaximum(a, |DISC_ORDER|);
    forall t
      ensures Occurrences(a, t) <= Occurrences(a, Winner(a))
    {
      assert DISC_ORDER[OrderIndex(t)] == t;
    }
    forall t | OrderIndex(t) < OrderIndex(Winner(a))
      ensures Occurrences(a, t) < Occurrences(a, Winner(a))
    {
      assert DISC_ORDER[OrderIndex(t)] == t;
    }
    if a == [] {
      assert Occurrences(a, D) == Occurrences(a, Winner(a)) == 0;
    }
  }

  /** Those two properties single the winner out. */
  lemma WinnerUnique(a: seq<DiscType>, w: DiscType)
    requires forall t :: Occurrences(a, t) <= Occurrences(a, w)
    requires forall t :: OrderIndex(t) < OrderIndex(w) ==> Occurrences(a, t) < Occurrences(a, w)
    ensures w == Winner(a)
  {
    WinnerIsFirstMaximum(a);
    assert DISC_ORDER[OrderIndex(w)] == w;
    assert DISC_ORDER[OrderIndex(Winner(a))] == Winner(a);
  }

  /** The profile shown for a type: its `DISC_INFO` entry. */
  function ProfileOf(t: DiscType): (p: DiscProfile)
    ensures p.kind == t
    ensures p.labelText == Info(t).labelText && p.description == Info(t).desc
    ensures p.challengeStrategy == Info(t).strategy
  {
    DiscProfile(t, Info(t).labelText, Info(t).desc, Info(t).strategy)
  }

  /** `calculateResult`: tally the answers, then scan D, I, S, C keeping the first strictly
      greater count. */
  method CalculateResult(finalAnswers: seq<DiscType>) returns (profile: DiscProfile)
    ensures profile == ProfileOf(Winner(finalAnswers))
    ensures forall t :: Occurrences(finalAnswers, t) <= Occurrences(finalAnswers, profile.kind)
    ensures forall t :: OrderIndex(t) < OrderIndex(profile.kind) ==>
      Occurrences(finalAnswers, t) < Occurrences(finalAnswers, profile.kind)
  {
    var counts: map<DiscType, nat> := map[];
    for i := 0 to |finalAnswers|
      invariant forall t :: t in counts ==> counts[t] == Occurrences(finalAnswers[..i], t)
      invariant forall t :: t !in counts ==> Occurrences(finalAnswers[..i], t) == 0
    {
      assert finalAnswers[..i + 1][..i] == finalAnswers[..i];
      var curr := finalAnswers[i];
      counts := counts[curr := (if curr in counts then counts[curr] else 0) + 1];
    }
    assert finalAnswers[..|finalAnswers|] == finalAnswers;
    var maxType: DiscType := D;
    var maxCount := 0;
    for k := 0 to |DISC_ORDER|
      invariant (maxType, maxCount) == Leader(finalAnswers, k)
    {
      var t := DISC_ORDER[k];
      var c := if t in counts then counts[t] else 0;
      if c > maxCount {
        maxCount := c;
        maxType := t;
      }
    }
    WinnerIsFirstMaximum(finalAnswers);
    profile := ProfileOf(maxType);
  }

  /** A snapshot of the quiz: the question shown, the answers so far and the computed profile. */
  datatype QuizState = QuizState(step: nat, answers: seq<DiscType>, result: Option<DiscProfile>)

  const INITIAL: QuizState := QuizState(0, [], None)

  /** `handleAnswer` as a transition: record the answer, then either show the next
      question or, after the last one, the profile of all answers. */
  function Answered(s: QuizState, t: DiscType): (r: QuizState)
    ensures r.answers == s.answers + [t]
    ensures s.step < |Questions()| - 1 ==> r.step == s.step + 1 && r.result == s.result
    ensures s.step >= |Questions()| - 1 ==> r.step == s.step && r.result == Some(ProfileOf(Winner(r.answers)))
  {
    if s.step < |Questions()| - 1 then QuizState(s.step + 1, s.answers + [t], s.result)
    else QuizState(s.step, s.answers + [t], Some(ProfileOf(Winner(s.answers + [t]))))
  }

  /** The state after answering `ts` in order. */
  function AnswerAll(s: QuizState, ts: seq<DiscType>): QuizState {
    if ts == [] then s else Answered(AnswerAll(s, ts[..|ts| - 1]), ts[|ts| - 1])
  }

  /** From a fresh quiz, the first nine answers only advance the question, and the tenth
      shows the profile of all ten. */
  lemma {:induction false} QuizRun(ts: seq<DiscType>)
    requires |ts| <= |Questions()|
    ensures |ts| < |Questions()| ==> AnswerAll(INITIAL, ts) == QuizState(|ts|, ts, None)
    ensures |ts| == |Questions()| ==>
      AnswerAll(INITIAL, ts) == QuizState(|Questions()| - 1, ts, Some(ProfileOf(Winner(ts))))
  {
    if ts != [] {
      var p := ts[..|ts| - 1];
      var x := ts[|ts| - 1];
      QuizRun(p);
      assert AnswerAll(INITIAL, ts) == Answered(AnswerAll(INITIAL, p), x);
      assert AnswerAll(INITIAL, p) == QuizState(|p|, p, None);
      assert p + [x] == ts;
    }
  }

  /** The width of the progress bar on question `step`, in percent. */
  function Progress(step: nat): int {
    Round(((step + 1) as real / |Questions()| as real) * 100.0)
  }

  /** On question `step` the bar shows `(step + 1) * 10` percent, and 100 on the last. */
  lemma ProgressValue(step: nat)
    requires step < |Questions()|
    ensures Progress(step) == (step + 1) * 10
    ensures step == |Questions()| - 1 ==> Progress(step) == 100
  {
    assert ((step + 1) as real / 10.0) * 100.0 == ((step + 1) * 10) as real;
  }

  /** The quiz screen. */
  class Quiz {
    var step: nat
    var answers: seq<DiscType>
    var result: Option<DiscProfile>

    function State(): QuizState
      reads this
    {
      QuizState(step, answers, result)
    }

    constructor()
      ensures State() == INITIAL
    {
      step := 0;
      answers := [];
      result := None;
    }

    /** `handleAnswer`. */
    method HandleAnswer(t: DiscType)
      modifies this
      ensures State() == Answered(old(State()), t)
    {
      var newAnswers := answers + [t];
      answers := newAnswers;
      if step < |Questions()| - 1 {
        step := step + 1;
      } else {
        var profile := CalculateResult(newAnswers);
        result := Some(profile);
      }
    }
  }
}
