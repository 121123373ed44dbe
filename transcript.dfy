/**
 * The chat transcript of the physics chatbot: its entries, the fixed two-entry
 * seed context, the projection into the remote model's history format and the
 * filter that decides which entries the chat window shows.
 */
module Transcript {

  /** The role labels used by the transcript and by the remote model's history. */
  const UserRole: string := "user"
  const ModelRole: string := "model"

  /** The seed instruction that restricts the assistant to physics. */
  const Instruction: string :=
    "Kamu adalah ahli fisika. Tuliskan rumus tentang fisika. jawaban singkat. Tolak pertanyaan non-fisika."

  /** The seed acknowledgement; the chat window hides model entries with this text. */
  const Acknowledgement: string := "Baik! Berikan rumus yang ingin anda ketahui."

  /** One transcript entry: a role label and its parts (in practice one text). */
  datatype Turn = Turn(role: string, parts: seq<string>)

  function UserTurn(text: string): Turn { Turn(UserRole, [text]) }

  function ModelTurn(text: string): Turn { Turn(ModelRole, [text]) }

  /** The seed context a fresh session starts from: instruction, then acknowledgement. */
  const InitialContext: seq<Turn> := [UserTurn(Instruction), ModelTurn(Acknowledgement)]

  /**
   * The seed context, spelled out: the physics instruction as a user entry,
   * then the acknowledgement as a model entry, each with a single part.
   */
  lemma {:induction false} SeedContext()
    ensures |InitialContext| == 2
    ensures InitialContext[0] == Turn("user", ["Kamu adalah ahli fisika. Tuliskan rumus tentang fisika. jawaban singkat. Tolak pertanyaan non-fisika."])
    ensures InitialContext[1] == Turn("model", ["Baik! Berikan rumus yang ingin anda ketahui."])
    ensures AllWellFormed(InitialContext)
  {
  }

  /** Every entry the program itself creates has one of the two roles and exactly one part. */
  predicate WellFormed(t: Turn) {
    (t.role == UserRole || t.role == ModelRole) && |t.parts| == 1
  }

  predicate AllWellFormed(m: seq<Turn>) {
    forall t | t in m :: WellFormed(t)
  }

  // ---------------------------------------------------------------------------
  // Projection into the remote model's history
  // ---------------------------------------------------------------------------

  /** The role label sent to the remote model: "user" stays, anything else becomes "model". */
  function ProjectRole(role: string): string {
    if role == UserRole then UserRole else ModelRole
  }

  /**
   * The request history built from the transcript, entry by entry, in order,
   * with the parts copied unchanged.
   */
  function Project(m: seq<Turn>): (h: seq<Turn>)
    ensures |h| == |m|
    ensures forall i | 0 <= i < |m| :: h[i].parts == m[i].parts
    ensures forall i | 0 <= i < |m| :: h[i].role == UserRole <==> m[i].role == UserRole
    ensures forall i | 0 <= i < |m| :: h[i].role == UserRole || h[i].role == ModelRole
  {
    if m == [] then []
    else [Turn(ProjectRole(m[0].role), m[0].parts)] + Project(m[1..])
  }

  /** Projection distributes over concatenation. */
  lemma {:induction false} ProjectAppend(a: seq<Turn>, b: seq<Turn>)
    ensures Project(a + b) == Project(a) + Project(b)
  {
    if a == [] {
      assert a + b == b;
    } else {
      assert (a + b)[1..] == a[1..] + b;
      ProjectAppend(a[1..], b);
    }
  }

  /** On a well-formed transcript the projection changes nothing. */
  lemma {:induction false} ProjectIdentity(m: seq<Turn>)
    requires AllWellFormed(m)
    ensures Project(m) == m
  {
    if m != [] {
      assert m[0] in m;
      assert forall t | t in m[1..] :: t in m;
      ProjectIdentity(m[1..]);
      assert m == [m[0]] + m[1..];
    }
  }

  /**
   * The history built right after the prompt is appended ends with that
   * prompt's user entry, after the projection of everything before it.
   */
  lemma HistoryEndsWithPrompt(m: seq<Turn>, prompt: string)
    ensures Project(m + [UserTurn(prompt)]) == Project(m) + [UserTurn(prompt)]
    ensures Project(m + [UserTurn(prompt)])[|m|] == UserTurn(prompt)
  {
    ProjectAppend(m, [UserTurn(prompt)]);
    assert Project([UserTurn(prompt)]) == [UserTurn(prompt)];
  }

  // ---------------------------------------------------------------------------
  // Which entries the chat window shows
  // ---------------------------------------------------------------------------

  /** The display loop reads the first part of every user and model entry. */
  predicate Displayable(t: Turn) {
    (t.role == UserRole || t.role == ModelRole) ==> |t.parts| > 0
  }

  predicate AllDisplayable(m: seq<Turn>) {
    forall t | t in m :: Displayable(t)
  }

  lemma WellFormedDisplayable(m: seq<Turn>)
    requires AllWellFormed(m)
    ensures AllDisplayable(m)
  {
  }

  /**
   * The keep/hide decision of the display loop: user entries are always shown;
   * model entries are shown unless their text is the acknowledgement; entries
   * with any other role are not shown.
   */
  predicate Shown(t: Turn)
    requires Displayable(t)
  {
    t.role == UserRole || (t.role == ModelRole && t.parts[0] != Acknowledgement)
  }

  /** The entries the chat window shows, in transcript order. */
  function Visible(m: seq<Turn>): (v: seq<Turn>)
    requires AllDisplayable(m)
    ensures |v| <= |m|
    ensures forall t | t in v :: t in m && Shown(t)
  {
    if m == [] then []
    else
      assert forall t | t in m[1..] :: t in m;
      (if Shown(m[0]) then [m[0]] else []) + Visible(m[1..])
  }

  /** Every entry that passes the filter is shown. */
  lemma {:induction false} VisibleComplete(m: seq<Turn>, t: Turn)
    requires AllDisplayable(m)
    requires t in m && Shown(t)
    ensures t in Visible(m)
  {
    assert forall u | u in m[1..] :: u in m;
    if m[0] != t {
      assert t in m[1..];
      VisibleComplete(m[1..], t);
    }
  }

  /** The filter works entry by entry, so it distributes over concatenation. */
  lemma {:induction false} VisibleAppend(a: seq<Turn>, b: seq<Turn>)
    requires AllDisplayable(a) && AllDisplayable(b)
    ensures AllDisplayable(a + b)
    ensures Visible(a + b) == Visible(a) + Visible(b)
  {
    if a == [] {
      assert a + b == b;
    } else {
      assert (a + b)[1..] == a[1..] + b;
      assert forall t | t in a[1..] :: t in a;
      VisibleAppend(a[1..], b);
    }
  }

  /** The seed instruction is shown; only the acknowledgement is hidden. */
  lemma SeedVisible()
    ensures AllDisplayable(InitialContext)
    ensures Visible(InitialContext) == [UserTurn(Instruction)]
  {
    VisibleAppend([UserTurn(Instruction)], [ModelTurn(Acknowledgement)]);
    assert InitialContext == [UserTurn(Instruction)] + [ModelTurn(Acknowledgement)];
  }

  /**
   * Whatever follows the seed context, the window starts with the seed
   * instruction and then shows exactly what it would show of the rest.
   */
  lemma SeededVisible(rest: seq<Turn>)
    requires AllDisplayable(rest)
    ensures AllDisplayable(InitialContext + rest)
    ensures Visible(InitialContext + rest) == [UserTurn(Instruction)] + Visible(rest)
  {
    SeedVisible();
    VisibleAppend(InitialContext, rest);
  }

  /**
   * After a successful exchange the window shows the prompt and, unless the
   * reply is word for word the acknowledgement, the reply.
   */
  lemma VisibleAfterExchange(m: seq<Turn>, prompt: string, reply: string)
    requires AllDisplayable(m)
    ensures AllDisplayable(m + [UserTurn(prompt), ModelTurn(reply)])
    ensures Visible(m + [UserTurn(prompt), ModelTurn(reply)])
         == Visible(m) + [UserTurn(prompt)] + (if reply == Acknowledgement then [] else [ModelTurn(reply)])
  {
    var tail := [UserTurn(prompt), ModelTurn(reply)];
    VisibleAppend([UserTurn(prompt)], [ModelTurn(reply)]);
    assert tail == [UserTurn(prompt)] + [ModelTurn(reply)];
    VisibleAppend(m, tail);
  }

  // ---------------------------------------------------------------------------
  // Removing the last entry
  // ---------------------------------------------------------------------------

  /** The transcript without its last entry (Python's list pop). */
  function Pop(m: seq<Turn>): (r: seq<Turn>)
    requires |m| > 0
    ensures r + [m[|m| - 1]] == m
  {
    m[..|m| - 1]
  }
}
