/** The project card's derived values (components/project-card.tsx): the
    score colour and icon tiers, the status badge, the critical border,
    employee initials and the avatar overflow rule. */
module ProjectCard {

  import opened Common
  import opened Sequences
  import opened Text
  import opened ProjectModel

  datatype HealthTone = Emerald | Amber | Red
  datatype HealthIcon = CheckCircle | Pulse | Warning

  /** `getHealthColor(score)`. */
  function HealthColor(score: int): HealthTone
  {
    if score >= 80 then Emerald
    else if score >= 60 then Amber
    else Red
  }

  /** `getHealthIcon(score)`. */
  function HealthIconOf(score: int): HealthIcon
  {
    if score >= 80 then CheckCircle
    else if score >= 60 then Pulse
    else Warning
  }

  /** The card gets the red left border when the score is below 60. */
  predicate RedBorder(score: int)
  {
    score < 60
  }

  /** Icon, colour and border are three encodings of one tier. */
  lemma IconBorderAndColourAgree(score: int)
    ensures HealthIconOf(score) == CheckCircle <==> HealthColor(score) == Emerald
    ensures HealthIconOf(score) == Pulse <==> HealthColor(score) == Amber
    ensures HealthIconOf(score) == Warning <==> HealthColor(score) == Red
    ensures RedBorder(score) <==> HealthColor(score) == Red
  {
  }

  datatype BadgeVariant = Default | Secondary | Destructive | Outline

  /** `getStatusConfig(status).variant`; Completed takes the `default` branch. */
  function StatusBadge(s: ProjectStatus): BadgeVariant
  {
    match s
    case OnTrack => Default
    case AtRisk => Secondary
    case Critical => Destructive
    case Completed => Outline
  }

  /** Each status has its own badge, and the fallback outline badge is
      reached by Completed only. */
  lemma StatusBadgeDistinct(a: ProjectStatus, b: ProjectStatus)
    ensures StatusBadge(a) == StatusBadge(b) <==> a == b
    ensures StatusBadge(a) == Outline <==> a == Completed
  {
  }

  /** The badge text: the stored label with every underscore made a space. */
  function BadgeText(s: ProjectStatus): string
  {
    ReplaceAll(StatusLabel(s), '_', ' ')
  }

  /** No stored label holds an underscore, so the badge shows the label as stored. */
  lemma BadgeTextIsLabel(s: ProjectStatus)
    ensures BadgeText(s) == StatusLabel(s)
  {
    ReplaceAbsent(StatusLabel(s), '_', ' ');
  }

  /** `getInitials(name)`: the first character of each space-separated
      piece, the first two of those, upper-cased. An empty piece has no
      first character and adds nothing. */
  function Initials(name: string): (r: string)
    ensures |r| <= 2
    ensures forall i :: 0 <= i < |r| ==> !('a' <= r[i] <= 'z')
  {
    ToUpper(Take(FirstLetters(Split(name, ' ')), 2))
  }

  /** A first and last name give the upper-cased first letter of each. */
  lemma TwoWordInitials(first: string, last: string)
    requires first != "" && last != "" && ' ' !in first && ' ' !in last
    ensures Initials(first + " " + last) == ToUpper([first[0], last[0]])
  {
    SplitAfterWord(first, ' ', last);
    SplitWithoutSeparator(last, ' ');
    assert Split(first + " " + last, ' ') == [first, last];
    assert FirstLetters([first, last]) == [first[0], last[0]] by {
      assert [first, last][1..] == [last];
    }
  }

  /** A single word gives its upper-cased first letter; a leading space
      gives an empty piece and changes nothing. */
  lemma OneWordInitials(word: string)
    requires word != "" && ' ' !in word
    ensures Initials(word) == ToUpper([word[0]])
    ensures Initials(" " + word) == ToUpper([word[0]])
  {
    SplitWithoutSeparator(word, ' ');
    SplitAfterWord("", ' ', word);
    assert "" + " " + word == " " + word;
    assert Split(" " + word, ' ') == ["", word];
    assert FirstLetters(["", word]) == [word[0]] by {
      assert ["", word][1..] == [word];
    }
  }

  /** The avatars drawn: the first three employees. */
  function AvatarNames(employees: seq<string>): (r: seq<string>)
    ensures |r| <= 3 && |r| <= |employees| && r == employees[..|r|]
  {
    Take(employees, 3)
  }

  /** The "+N" badge after the avatars: shown with N = count - 3 when there
      are more than three employees. */
  function OverflowBadge(count: nat): (b: Option<nat>)
    ensures b.Some? <==> count > 3
  {
    if count > 3 then Some(count - 3) else None
  }

  /** Between the avatars and the badge every employee is counted exactly
      once, and the badge appears exactly when some employee has no avatar. */
  lemma EveryEmployeeCounted(employees: seq<string>)
    ensures var b := OverflowBadge(|employees|);
      |AvatarNames(employees)| + (if b.Some? then b.value else 0) == |employees|
    ensures OverflowBadge(|employees|).Some? <==> |AvatarNames(employees)| < |employees|
  {
  }
}
