/** Choosing the stage an invocation works on (`getStage`, `guessStage`):
    the --stage flag, else the personal-stage marker of the project, else a
    guess from the OS username, else a prompt repeated until a non-empty
    name is entered; a guessed or entered name becomes the new marker. */
module Stage {
  import opened Errors

  /** Usernames that are too ambiguous to become a personal stage. */
  const DENYLIST: set<string> := {"root", "admin", "prod", "dev", "production"}

  predicate IsUpper(ch: char) {
    'A' <= ch <= 'Z'
  }

  function LowerChar(ch: char): (r: char)
    ensures !IsUpper(r)
    ensures !IsUpper(ch) ==> r == ch
  {
    if IsUpper(ch) then (ch as int - 'A' as int + 'a' as int) as char else ch
  }

  /** `strings.ToLower`, on ASCII letters. */
  function ToLower(s: string): (r: string)
    ensures |r| == |s|
    ensures forall i :: 0 <= i < |s| ==> r[i] == LowerChar(s[i])
  {
    if |s| == 0 then [] else [LowerChar(s[0])] + ToLower(s[1..])
  }

  lemma {:induction false} ToLowerIdempotent(s: string)
    ensures ToLower(ToLower(s)) == ToLower(s)
  {
    var once := ToLower(s);
    assert forall i :: 0 <= i < |once| ==> ToLower(once)[i] == once[i];
  }

  /** `guessStage`: the lower-cased username, or "" when the user lookup
      failed or the name is on the denylist. */
  function GuessStage(username: Option<string>): (guess: string)
    ensures guess != "" ==> guess !in DENYLIST && username.Some? && guess == ToLower(username.value)
    ensures username.None? ==> guess == ""
    ensures username.Some? ==> (guess == "" <==> ToLower(username.value) in DENYLIST + {""})
  {
    match username
    case None => ""
    case Some(name) =>
      var stage := ToLower(name);
      if stage == "root" || stage == "admin" || stage == "prod" || stage == "dev" || stage == "production"
      then ""
      else stage
  }

  /** A guess is its own guess: it is already lower case and allowed. */
  lemma GuessStable(username: Option<string>)
    ensures var guess := GuessStage(username);
      guess != "" ==> GuessStage(Some(guess)) == guess
  {
    if username.Some? {
      ToLowerIdempotent(username.value);
    }
  }

  /** However a denylisted name is capitalised, no guess is made from it. */
  lemma DenylistedNamesNeverGuessed(name: string)
    requires ToLower(name) in DENYLIST
    ensures GuessStage(Some(name)) == ""
  {
  }

  /** One attempt to read a line at the prompt (`fmt.Scanln`). Scanln reads
      a single whitespace-separated token and fails on a line holding more
      than one, so in the source the text of a successful read never
      contains a space; the model accepts any text. */
  datatype Read = ReadFailed | ReadLine(text: string)

  predicate Accepted(r: Read) {
    r.ReadLine? && r.text != ""
  }

  /** The prompt loop: the first accepted read and how many attempts were made
      up to and including it; None when no read in `attempts` is accepted. */
  function FirstAccepted(attempts: seq<Read>): (r: Option<(string, nat)>)
    ensures r.None? <==> forall j :: 0 <= j < |attempts| ==> !Accepted(attempts[j])
    ensures r.Some? ==>
      && 0 < r.value.1 <= |attempts|
      && attempts[r.value.1 - 1] == ReadLine(r.value.0) && r.value.0 != ""
      && forall j :: 0 <= j < r.value.1 - 1 ==> !Accepted(attempts[j])
  {
    if |attempts| == 0 then None
    else if Accepted(attempts[0]) then Some((attempts[0].text, 1))
    else match FirstAccepted(attempts[1..])
      case None => None
      case Some((text, n)) => Some((text, n + 1))
  }

  /** How a resolution ends: with a stage, with the marker write failing, or
      with every read rejected (the source would still be prompting). */
  datatype StageResult = Resolved(stage: string) | WriteFailed | NoStageEntered

  /** The effect of one `getStage` call: its result, the marker afterwards
      and the number of prompt attempts it made. */
  datatype Resolution = Resolution(result: StageResult, marker: string, prompted: nat)

  function Persist(stage: string, marker: string, attempts: nat, writeOk: bool): Resolution {
    if writeOk then Resolution(Resolved(stage), stage, attempts)
    else Resolution(WriteFailed, marker, attempts)
  }

  /** `getStage` as a function of the flag, the marker ("" when absent), the
      username lookup, the reads at the prompt and whether writing the marker
      succeeds. */
  function ResolveStage(flag: string, marker: string, username: Option<string>,
                        prompt: seq<Read>, writeOk: bool): (r: Resolution)
    ensures r.prompted <= |prompt|
  {
    if flag != "" then Resolution(Resolved(flag), marker, 0)
    else if marker != "" then Resolution(Resolved(marker), marker, 0)
    else
      var guess := GuessStage(username);
      if guess != "" then Persist(guess, marker, 0, writeOk)
      else match FirstAccepted(prompt)
        case None => Resolution(NoStageEntered, marker, |prompt|)
        case Some((entered, n)) => Persist(entered, marker, n, writeOk)
  }

  /** Precedence: a non-empty flag wins and touches nothing; else a marker
      is used as it is; else the guess, else the first accepted read, is
      written to the marker and returned. Only the last step prompts. */
  lemma Precedence(flag: string, marker: string, username: Option<string>, prompt: seq<Read>, writeOk: bool)
    ensures var r := ResolveStage(flag, marker, username, prompt, writeOk);
      && (flag != "" ==> r == Resolution(Resolved(flag), marker, 0))
      && (flag == "" && marker != "" ==> r == Resolution(Resolved(marker), marker, 0))
      && (flag == "" && marker == "" && GuessStage(username) != "" ==>
            r.prompted == 0 &&
            r == (if writeOk then Resolution(Resolved(GuessStage(username)), GuessStage(username), 0)
                  else Resolution(WriteFailed, marker, 0)))
      && (r.prompted > 0 ==> flag == "" && marker == "" && GuessStage(username) == "")
      && (r.marker != marker ==> flag == "" && marker == "" && writeOk && r.result == Resolved(r.marker))
  {
  }

  /** A resolved stage is never empty. */
  lemma ResolvedNonEmpty(flag: string, marker: string, username: Option<string>, prompt: seq<Read>, writeOk: bool)
    ensures var r := ResolveStage(flag, marker, username, prompt, writeOk);
      r.result.Resolved? ==> r.result.stage != ""
  {
  }

  /** A prompted stage is the first non-empty line successfully read, after
      rejecting every earlier read. */
  lemma PromptedStage(marker: string, username: Option<string>, prompt: seq<Read>, n: nat)
    requires marker == "" && GuessStage(username) == ""
    requires n < |prompt| && Accepted(prompt[n])
    requires forall j :: 0 <= j < n ==> !Accepted(prompt[j])
    ensures ResolveStage("", marker, username, prompt, true) ==
      Resolution(Resolved(prompt[n].text), prompt[n].text, n + 1)
  {
  }

  /** Idempotence: after a call without a flag has resolved a stage, a second
      call without a flag returns the same stage, makes no attempt at the prompt
      and leaves the marker alone, whatever the username or input. */
  lemma {:induction false} Idempotent(marker: string, username: Option<string>, prompt: seq<Read>, writeOk: bool,
                                      username2: Option<string>, prompt2: seq<Read>, writeOk2: bool)
    ensures var first := ResolveStage("", marker, username, prompt, writeOk);
      first.result.Resolved? ==>
        ResolveStage("", first.marker, username2, prompt2, writeOk2) ==
          Resolution(first.result, first.marker, 0)
  {
    var first := ResolveStage("", marker, username, prompt, writeOk);
    if first.result.Resolved? {
      ResolvedNonEmpty("", marker, username, prompt, writeOk);
      assert first.marker == first.result.stage;
    }
  }

  /** The project's personal-stage marker file. */
  class PersonalStage {
    /** The marker's content, "" when there is none. */
    var marker: string

    constructor (marker: string)
      ensures this.marker == marker
    {
      this.marker := marker;
    }

    /** `getStage`: the prompt is the sequence of reads the user would make. */
    method GetStage(flag: string, username: Option<string>, prompt: seq<Read>, writeOk: bool)
      returns (result: StageResult, attempts: nat)
      modifies this
      ensures ResolveStage(flag, old(marker), username, prompt, writeOk) == Resolution(result, marker, attempts)
    {
      attempts := 0;
      var stage := flag;
      if stage == "" {
        stage := marker;
        if stage == "" {
          stage := GuessStage(username);
          if stage == "" {
            var entered := false;
            while attempts < |prompt| && !entered
              invariant 0 <= attempts <= |prompt|
              invariant forall j :: 0 <= j < attempts - (if entered then 1 else 0) ==> !Accepted(prompt[j])
              invariant entered ==> attempts > 0 && prompt[attempts - 1] == ReadLine(stage) && stage != ""
            {
              var line := prompt[attempts];
              attempts := attempts + 1;
              if line.ReadFailed? {
                continue;
              }
              stage := line.text;
              if stage == "" {
                continue;
              }
              entered := true;
            }
            if !entered {
              return NoStageEntered, attempts;
            }
            assert FirstAccepted(prompt) == Some((stage, attempts));
          }
          if !writeOk {
            return WriteFailed, attempts;
          }
          marker := stage;
        }
      }
      result := Resolved(stage);
    }
  }
}
