/**
  The answer to a management question: what a draft may write under management_question_answer, and
  how the drafting node completes it (apps/edr/graph/node_12_draft_json.py).
*/
module Answers {
  import opened Wrappers

  /** The text of a claim or a bullet: empty or an example from the prompt, genuine, or no string at all. */
  datatype Wording = Placeholder | Genuine | NotText

  /** A string that is blank, an example from the prompt, a text of the draft's own, or a note put in its place. */
  datatype Phrase = Spaces | Example | Real(text: string) | Note

  /**
    The value of a field: none, a falsy value, a non-empty string, or any other value. `measured` is
    false when the value has no length: null, a number or a truth value.
  */
  datatype Field = Absent | Falsy(measured: bool) | Words(phrase: Phrase) | Thing(measured: bool)
  {
    predicate HasLength() { (Falsy? || Thing?) ==> measured }
  }

  /** A list of bullets, the three notes put in its place, or anything else. */
  datatype Bullets = NoBullets | ThreeNotes | Bullets(items: seq<Wording>)

  /** An object with three texts, or anything else. */
  datatype Impact = NoImpact | Impact(schedule: Field, cost: Field, client: Field)
  datatype Action = NoAction | Action(step: Field, owner: Field, timeframe: Field)

  /** The evidence named: what the draft wrote, the ids of a finding, or a reference to the findings. */
  datatype Used = AsDrafted | Quoting(ids: seq<string>) | Catalogued

  datatype Answer =
    | Unwritten
    | NoObject
    | Answer(executive: Field, why: Bullets, impact: Impact, decision: Field, action: Action, risks: Field,
             missing: Field, used: Used)
  {
    /** The length of the executive answer can be logged. */
    predicate Measurable() { Answer? ==> executive.HasLength() }
  }

  const EMPTY := Falsy(true)
  const EMPTY_ANSWER :=
    Answer(EMPTY, Bullets([]), Impact(EMPTY, EMPTY, EMPTY), EMPTY, Action(EMPTY, EMPTY, EMPTY), EMPTY, EMPTY, AsDrafted)

  const NOTE := Words(Note)

  /** A text, or a note in place of a blank one; `None` when the value cannot be stripped. */
  function Stated(f: Field): Option<Field> {
    match f
    case Thing(_) => None
    case Words(phrase) => Some(if phrase.Spaces? then NOTE else f)
    case _ => Some(NOTE)
  }

  /** The same, with a note in place of an example from the prompt too. */
  function Meant(f: Field): Option<Field> {
    if f == Words(Example) then Some(NOTE) else Stated(f)
  }

  /** Whether all bullets are placeholders; the first genuine one decides, and no string before it raises. */
  function AllPlaceholders(items: seq<Wording>): Option<bool> {
    if items == [] then Some(true)
    else
      match items[0]
      case Genuine => Some(false)
      case NotText => None
      case Placeholder => AllPlaceholders(items[1..])
  }

  function Reasons(why: Bullets): Option<Bullets> {
    if !why.Bullets? || |why.items| < 3 then Some(ThreeNotes)
    else
      var empty :- AllPlaceholders(why.items);
      Some(if empty then ThreeNotes else why)
  }

  function Impacts(impact: Impact): Option<Impact> {
    if impact.NoImpact? then Some(Impact(NOTE, NOTE, NOTE))
    else
      var schedule :- Stated(impact.schedule);
      var cost :- Stated(impact.cost);
      var client :- Stated(impact.client);
      Some(Impact(schedule, cost, client))
  }

  function Steps(action: Action): Option<Action> {
    if action.NoAction? then Some(Action(NOTE, NOTE, NOTE))
    else
      var step :- Stated(action.step);
      var owner :- Stated(action.owner);
      var timeframe :- Stated(action.timeframe);
      Some(Action(step, owner, timeframe))
  }

  /** The completed answer, naming the ids of the first finding; `None` when completing it raises. */
  function Enriched(a: Answer, firstIds: seq<string>): Option<Answer> {
    var given := if a.Answer? then a else EMPTY_ANSWER;
    var executive :- Meant(given.executive);
    var why :- Reasons(given.why);
    var impact :- Impacts(given.impact);
    var decision :- Meant(given.decision);
    var action :- Steps(given.action);
    var risks :- Meant(given.risks);
    var missing :- Stated(given.missing);
    Some(Answer(executive, why, impact, decision, action, risks, missing,
                if firstIds != [] then Quoting(firstIds) else Catalogued))
  }
}
