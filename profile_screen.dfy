/** The profile page (ProfileScreen.tsx): the statistics over the user's recordings, the
    experience level, and the editor for the name and the brand. */
module Profile {
  import opened Util
  import opened Types

  // ---------------------------------------------------------------------------
  // Statistics

  /** The `reduce` adding up the scores, from the first recording to the last. A score is a
      JavaScript `number`, so it is a real here. */
  function ScoreSum(recs: seq<Recording>): real
    decreases |recs|
  {
    if recs == [] then 0.0 else ScoreSum(recs[..|recs| - 1]) + recs[|recs| - 1].analysis.score
  }

  /** `avgScore`: the rounded mean score, 0 without recordings. */
  function AverageScore(recs: seq<Recording>): int {
    if |recs| > 0 then Round(ScoreSum(recs) / |recs| as real) else 0
  }

  predicate ScoresWithin(recs: seq<Recording>, lo: real, hi: real) {
    forall i :: 0 <= i < |recs| ==> lo <= recs[i].analysis.score <= hi
  }

  lemma {:induction false} ScoreSumBounds(recs: seq<Recording>, lo: real, hi: real)
    requires ScoresWithin(recs, lo, hi)
    ensures |recs| as real * lo <= ScoreSum(recs) <= |recs| as real * hi
  {
    if recs != [] {
      var init := recs[..|recs| - 1];
      assert ScoresWithin(init, lo, hi) by {
        forall i | 0 <= i < |init|
          ensures lo <= init[i].analysis.score <= hi
        {
          assert init[i] == recs[i];
        }
      }
      ScoreSumBounds(init, lo, hi);
      assert lo <= recs[|recs| - 1].analysis.score <= hi;
      assert |recs| as real * lo == |init| as real * lo + lo && |recs| as real * hi == |init| as real * hi + hi;
    }
  }

  /** Rounding a number between two integers stays between them. */
  lemma RoundBetween(x: real, lo: int, hi: int)
    requires lo as real <= x <= hi as real
    ensures lo <= Round(x) <= hi
  {
  }

  /** A total between `n` times two bounds has its mean between them. */
  lemma MeanBetween(total: real, n: nat, lo: real, hi: real)
    requires n > 0 && n as real * lo <= total <= n as real * hi
    ensures lo <= total / n as real <= hi
  {
    var m, nr := total / n as real, n as real;
    assert m * nr == total;
    assert (m - lo) * nr == total - lo * nr;
    assert (hi - m) * nr == hi * nr - total;
    ScaledSign(m - lo, nr);
    ScaledSign(hi - m, nr);
  }

  /** Without recordings the average is 0; otherwise it lies within any integer bounds of the
      scores: between the lowest and the highest score when those are whole numbers. */
  lemma AverageWithinScores(recs: seq<Recording>, lo: int, hi: int)
    ensures recs == [] ==> AverageScore(recs) == 0
    ensures recs != [] && ScoresWithin(recs, lo as real, hi as real) ==> lo <= AverageScore(recs) <= hi
  {
    if recs != [] && ScoresWithin(recs, lo as real, hi as real) {
      ScoreSumBounds(recs, lo as real, hi as real);
      MeanBetween(ScoreSum(recs), |recs|, lo as real, hi as real);
      RoundBetween(ScoreSum(recs) / |recs| as real, lo, hi);
    }
  }

  /** `qualifiedCount`: the recordings scored as a qualified lead. */
  function QualifiedCount(recs: seq<Recording>): (r: nat)
    ensures r <= |recs|
    ensures r == |recs| <==> forall i :: 0 <= i < |recs| ==> recs[i].analysis.isQualified
    ensures r == 0 <==> forall i :: 0 <= i < |recs| ==> !recs[i].analysis.isQualified
  {
    if recs == [] then 0
    else
      var rest := QualifiedCount(recs[1..]);
      assert forall i :: 1 <= i < |recs| ==> recs[i] == recs[1..][i - 1];
      (if recs[0].analysis.isQualified then 1 else 0) + rest
  }

  // ---------------------------------------------------------------------------
  // Experience level

  datatype Level = Beginner | Advanced | Master

  /** The level shown for a number of calls. */
  function LevelOf(totalCalls: nat): Level {
    if totalCalls > 50 then Master else if totalCalls > 10 then Advanced else Beginner
  }

  function LevelText(l: Level): string {
    match l
    case Master => "Master"
    case Advanced => "Avançado"
    case Beginner => "Iniciante"
  }

  function Rank(l: Level): nat {
    match l
    case Beginner => 0
    case Advanced => 1
    case Master => 2
  }

  /** The thresholds, and more calls never lower the level. */
  lemma LevelThresholds(n: nat, m: nat)
    ensures LevelOf(n) == Master <==> n > 50
    ensures LevelOf(n) == Advanced <==> 10 < n <= 50
    ensures LevelOf(n) == Beginner <==> n <= 10
    ensures n <= m ==> Rank(LevelOf(n)) <= Rank(LevelOf(m))
  {
  }

  // ---------------------------------------------------------------------------
  // The editor

  /** `{ ...user, name, brand }`. */
  function Edited(user: User, name: string, brand: string): (r: User)
    ensures r.name == name && r.brand == brand
    ensures r.id == user.id && r.email == user.email && r.password == user.password
    ensures r.avatarUrl == user.avatarUrl && r.joinedDate == user.joinedDate && r.discProfile == user.discProfile
  {
    user.(name := name, brand := brand)
  }

  /** Saving the fields as they were gives the user back, and a second edit overrides the first. */
  lemma EditedProperties(user: User, n1: string, b1: string, n2: string, b2: string)
    ensures Edited(user, user.name, user.brand) == user
    ensures Edited(Edited(user, n1, b1), n2, b2) == Edited(user, n2, b2)
  {
  }

  class ProfileEditor {
    var name: string
    var brand: string
    var isEditing: bool
    /** The users handed to `onUpdate`. */
    var updates: seq<User>

    constructor(user: User)
      ensures name == user.name && brand == user.brand && !isEditing && updates == []
    {
      name, brand, isEditing, updates := user.name, user.brand, false, [];
    }

    method StartEditing()
      modifies this
      ensures isEditing && name == old(name) && brand == old(brand) && updates == old(updates)
    {
      isEditing := true;
    }

    method SetName(value: string)
      modifies this
      ensures name == value && brand == old(brand) && isEditing == old(isEditing) && updates == old(updates)
    {
      name := value;
    }

    method SetBrand(value: string)
      modifies this
      ensures brand == value && name == old(name) && isEditing == old(isEditing) && updates == old(updates)
    {
      brand := value;
    }

    /** `handleSave`: hands over the user with the edited name and brand and leaves editing. */
    method HandleSave(user: User)
      modifies this
      ensures updates == old(updates) + [Edited(user, old(name), old(brand))]
      ensures !isEditing && name == old(name) && brand == old(brand)
    {
      updates := updates + [user.(name := name, brand := brand)];
      isEditing := false;
    }

    /** Cancel leaves editing without handing anything over; the typed fields stay as typed. */
    method Cancel()
      modifies this
      ensures !isEditing && name == old(name) && brand == old(brand) && updates == old(updates)
    {
      isEditing := false;
    }
  }
}
