/** The records the application passes between its screens (types.ts). */
module Types {
  import opened Util

  datatype ExerciseType = Qualify | ColdQualify | Emotion | Proposal | Objections

  datatype Difficulty = Easy | Medium | Difficult

  /** The four behavioural profiles of the DISC model. */
  datatype DiscType = D | I | S | C

  datatype DiscProfile = DiscProfile(kind: DiscType, labelText: string, description: string, challengeStrategy: string)

  datatype Theme = Dark | Light

  datatype User = User(
    id: string,
    name: string,
    email: string,
    password: string,
    brand: string,
    avatarUrl: string,
    joinedDate: string,
    discProfile: Option<DiscProfile>)

  datatype Exercise = Exercise(id: string, kind: ExerciseType, title: string, description: string)

  /** `'user'` is the salesperson training on the platform, `'ai'` the simulated lead. */
  datatype Speaker = UserSpeaker | AiSpeaker

  datatype Transcript = Transcript(speaker: Speaker, text: string)

  datatype AnalysisResult = AnalysisResult(
    score: real,
    isQualified: bool,
    summary: string,
    failedPoints: seq<string>,
    nextSteps: seq<string>)

  datatype Gender = Male | Female

  /** The persona of the simulated lead; the optional fields depend on the exercise. */
  datatype ScenarioData = ScenarioData(
    name: string,
    gender: Gender,
    avatarUrl: string,
    experience: Option<string>,
    revenue: Option<string>,
    brand: Option<string>,
    propertiesAcquired: Option<string>,
    digitalAdoption: Option<string>,
    dreamOrFear: Option<string>,
    initialPhrase: string,
    context: string)

  datatype Recording = Recording(
    id: string,
    userId: string,
    date: string,
    exercise: Exercise,
    difficulty: Difficulty,
    transcript: seq<Transcript>,
    analysis: AnalysisResult,
    userAudioUrl: string,
    aiAudioUrl: string)

  /** What a finished call hands to the store: a recording before the store stamps its id, owner and date. */
  datatype RecordingDraft = RecordingDraft(
    exercise: Exercise,
    difficulty: Difficulty,
    transcript: seq<Transcript>,
    analysis: AnalysisResult,
    userAudioUrl: string,
    aiAudioUrl: string)
}
