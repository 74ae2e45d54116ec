/** The interactive loop of `main`: one turn per operator instruction, gated
    in order by the exit keyword, the credential placeholder, the generation
    result, the extracted code and the operator's confirmation, then part
    resolution, assembly of the names the script may use, and execution with
    every fault caught. Generation, the host and execution are inputs. */
module Agent {
  import opened Wrappers
  import opened Text
  import opened Extractor
  import opened Host

  /** The value `API_KEY` ships with; a turn refuses to call the service
      while the key still holds it. */
  const PlaceholderKey: string := "YOUR_API_KEY_HERE"

  /** The instruction, lower-cased, is "q" or "exit": "q", "Q", or "exit"
      in any mix of cases. */
  predicate IsQuitCommand(s: string): (r: bool)
    ensures r <==> s == "q" || s == "Q" ||
                   (|s| == 4 && s[0] in "eE" && s[1] in "xX" && s[2] in "iI" && s[3] in "tT")
  {
    LowerMatches(s, "q");
    LowerMatches(s, "exit");
    Lower(s) == "q" || Lower(s) == "exit"
  }

  /** The confirmation, lower-cased, is "y": exactly "y" and "Y" confirm, and
      anything else, "yes" included, declines. */
  predicate Confirmed(s: string): (r: bool)
    ensures r <==> s == "y" || s == "Y"
  {
    LowerMatches(s, "y");
    Lower(s) == "y"
  }

  /** Lowering `s` gives the lower-case word `w` exactly when `s` has its
      length and each character is the letter of `w` or its capital. */
  lemma LowerMatches(s: string, w: string)
    requires forall i :: 0 <= i < |w| ==> 'a' <= w[i] <= 'z'
    ensures Lower(s) == w <==> |s| == |w| && forall i :: 0 <= i < |s| ==> CaseOf(s[i], w[i])
  {
    if |s| == |w| {
      forall i | 0 <= i < |s|
        ensures Lower(s)[i] == w[i] <==> CaseOf(s[i], w[i])
      {
        LowerCharMatches(s[i], w[i]);
      }
    }
  }

  /** `c` is the lower-case letter `l` or its capital. */
  predicate CaseOf(c: char, l: char)
  {
    c == l || c as int == l as int - 32
  }

  lemma LowerCharMatches(c: char, l: char)
    requires 'a' <= l <= 'z'
    ensures LowerChar(c) == l <==> CaseOf(c, l)
  {
  }

  /** Python's `not s` for an optional string: None and "" are falsy, and
      every other string is truthy. */
  predicate Falsy(s: Option<string>): (r: bool)
    ensures r <==> s == None || s == Some("")
  {
    s.None? || s.value == ""
  }

  /** What the host answers during one turn's execution step. The answers
      are given per turn, since every earlier script may have changed the
      live session. `partSearch` is None when a call raises before the first
      hit is taken (reading the selection, clearing it, the search, `Count`
      or `Item(1)`); a raise after that, while reading the hit's name for
      the message, keeps the first hit and is `Some`. */
  datatype HostFacts = HostFacts(
    editorOk: bool,                      // catia.ActiveEditor, its ActiveObject and its Selection answer
    activeObject: HostObject,            // editor.ActiveObject
    partSearch: Option<seq<HostObject>>, // hits of Search("CATGmoSearch.Part,all")
    exec: Executor)                      // how this turn's `exec` answers

  /** One operator turn: the instruction, what generation returned for it
      (None for an HTTP or transport failure), the answer to "Execute
      this?", and the host's answers. */
  datatype TurnInput = TurnInput(
    command: string,
    response: Option<string>,
    confirmation: string,
    host: HostFacts)

  /** The names a generated script can find in `exec_globals`. */
  datatype Global =
    | Win32comName | CatiaName | EditorName | PartName | SelectionName
    | RequireGeosetName | RequireBodyName | GetTopFaceName
    | HsfName | SfName | BodiesName

  /** The Python identifier of each name. */
  function Identifier(g: Global): string
  {
    match g
    case Win32comName => "win32com"
    case CatiaName => "catia"
    case EditorName => "editor"
    case PartName => "part"
    case SelectionName => "selection"
    case RequireGeosetName => "require_geoset"
    case RequireBodyName => "require_body"
    case GetTopFaceName => "get_top_face"
    case HsfName => "hsf"
    case SfName => "sf"
    case BodiesName => "bodies"
  }

  /** Distinct names have distinct identifiers, so the map keyed by `Global`
      holds what the string-keyed dictionary holds. */
  lemma IdentifierInjective(g: Global, h: Global)
    ensures Identifier(g) == Identifier(h) ==> g == h
  {
  }

  /** A value bound in the context a generated script runs against. */
  datatype Binding =
    | Win32Com
    | Application
    | Editor
    | ActivePart(obj: HostObject)
    | EditorSelection
    | RequireGeosetHelper
    | RequireBodyHelper
    | GetTopFaceHelper
    | PartMember(member: Capability, owner: HostObject)

  /** `exec_globals`, keyed by the names above. */
  type Context = map<Global, Binding>

  /** `exec(code, exec_globals)` in the session as it stands at that turn:
      true when the script runs to the end, false when it raises. */
  type Executor = (string, Context) -> bool

  /** How a turn ends. */
  datatype Outcome =
    | Quit                                              // exit keyword: the loop ends
    | KeyRejected                                       // API key still the placeholder
    | GenerationFailed                                  // no (or empty) response
    | NoCode(raw: string)                               // nothing extracted, raw text reported
    | Cancelled(code: string)                           // operator declined
    | SetupFailed(code: string)                         // editor access raised before exec
    | Executed(code: string, context: Context, succeeded: bool)

  /** The service was called during the turn. */
  predicate GenerationAttempted(o: Outcome)
  {
    !o.Quit? && !o.KeyRejected?
  }

  /** The operator was asked to confirm during the turn. */
  predicate ConfirmationAsked(o: Outcome)
  {
    o.Cancelled? || o.SetupFailed? || o.Executed?
  }

  /** The names every script can use. */
  const BaseNames: set<Global> :=
    {Win32comName, CatiaName, EditorName, PartName, SelectionName,
     RequireGeosetName, RequireBodyName, GetTopFaceName}

  /** The name under which a member of the part is bound. */
  function MemberName(c: Capability): Global
  {
    match c
    case HybridShapeFactory => HsfName
    case ShapeFactory => SfName
    case Bodies => BodiesName
  }

  /** The part the script works on: the active object when it exposes a
      HybridShapeFactory; otherwise the first hit of the Part search when
      there is one; otherwise, and when the search raises before a hit is
      taken, the active object all the same. Resolution never ends the
      turn. */
  function ResolvePart(active: HostObject, partSearch: Option<seq<HostObject>>): (p: HostObject)
    ensures HybridShapeFactory in active.exposes ==> p == active
    ensures p == active || (partSearch.Some? && partSearch.value != [] && p == partSearch.value[0])
    ensures HybridShapeFactory !in active.exposes && partSearch.Some? && partSearch.value != []
            ==> p == partSearch.value[0]
  {
    if HybridShapeFactory in active.exposes then active
    else match partSearch
      case Some(hits) => if |hits| > 0 then hits[0] else active
      case None => active
  }

  /** The fixed part of `exec_globals`. */
  function BaseContext(part: HostObject): (g: Context)
    ensures g.Keys == BaseNames
    ensures g[PartName] == ActivePart(part)
  {
    map[Win32comName := Win32Com, CatiaName := Application, EditorName := Editor,
        PartName := ActivePart(part), SelectionName := EditorSelection,
        RequireGeosetName := RequireGeosetHelper, RequireBodyName := RequireBodyHelper,
        GetTopFaceName := GetTopFaceHelper]
  }

  /** `g` with member `c` of `part` bound when reading it does not raise, and
      left as it is when it does. */
  function BindMember(g: Context, part: HostObject, c: Capability): Context
  {
    if c in part.exposes then g[MemberName(c) := PartMember(c, part)] else g
  }

  /** `exec_globals` for a turn: the eight fixed names, and each of `hsf`,
      `sf` and `bodies` exactly when the part exposes the member behind it,
      independently of the other two. */
  function BindingContext(part: HostObject): (g: Context)
    ensures forall n :: n in BaseNames ==> n in g
    ensures forall n :: n in g ==> n in BaseNames || n in {HsfName, SfName, BodiesName}
    ensures PartName in g && g[PartName] == ActivePart(part)
    ensures forall c :: c in part.exposes <==> MemberName(c) in g
    ensures forall c :: c in part.exposes ==> g[MemberName(c)] == PartMember(c, part)
  {
    var g0 := BaseContext(part);
    var g1 := BindMember(g0, part, HybridShapeFactory);
    var g2 := BindMember(g1, part, ShapeFactory);
    BindMember(g2, part, Bodies)
  }

  /** One pass of the loop body. Each gate ends the turn before the next
      step runs: the exit keyword quits whatever the key; otherwise a
      placeholder key rejects the turn and any other key calls the service;
      no response ends the turn, and so does no code, reporting the raw
      text; otherwise the operator is asked, a decline cancels, an editor
      that does not answer fails the setup, and a confirmed turn runs the
      extracted code against `BindingContext` of the resolved part and
      reports what this turn's `exec` answers. */
  function TurnSpec(t: TurnInput, apiKey: string): (o: Outcome)
    ensures o.Quit? <==> IsQuitCommand(t.command)
    ensures !IsQuitCommand(t.command) ==> (o == KeyRejected <==> apiKey == PlaceholderKey)
    ensures GenerationAttempted(o) <==> !IsQuitCommand(t.command) && apiKey != PlaceholderKey
    ensures GenerationAttempted(o) ==> (o == GenerationFailed <==> Falsy(t.response))
    ensures o.NoCode? <==>
              GenerationAttempted(o) && !Falsy(t.response) && Falsy(ExtractPythonCode(t.response.value))
    ensures o.NoCode? ==> o.raw == t.response.value
    ensures ConfirmationAsked(o) <==>
              GenerationAttempted(o) && !Falsy(t.response) && !Falsy(ExtractPythonCode(t.response.value))
    ensures ConfirmationAsked(o) ==> o.code == ExtractPythonCode(t.response.value).value
    ensures ConfirmationAsked(o) ==> (o.Cancelled? <==> !Confirmed(t.confirmation))
    ensures ConfirmationAsked(o) && Confirmed(t.confirmation) ==> (o.SetupFailed? <==> !t.host.editorOk)
    ensures ConfirmationAsked(o) && Confirmed(t.confirmation) && t.host.editorOk ==>
              var ctx := BindingContext(ResolvePart(t.host.activeObject, t.host.partSearch));
              o == Executed(o.code, ctx, t.host.exec(o.code, ctx))
  {
    if IsQuitCommand(t.command) then Quit
    else if apiKey == PlaceholderKey then KeyRejected
    else if Falsy(t.response) then GenerationFailed
    else
      var code := ExtractPythonCode(t.response.value);
      if Falsy(code) then NoCode(t.response.value)
      else if !Confirmed(t.confirmation) then Cancelled(code.value)
      else if !t.host.editorOk then SetupFailed(code.value)
      else
        var ctx := BindingContext(ResolvePart(t.host.activeObject, t.host.partSearch));
        Executed(code.value, ctx, t.host.exec(code.value, ctx))
  }

  /** The turns of one session: every instruction up to and including the
      first exit keyword. */
  function Session(turns: seq<TurnInput>, apiKey: string): (s: seq<Outcome>)
    ensures |s| <= |turns|
  {
    if |turns| == 0 then []
    else if IsQuitCommand(turns[0].command) then [Quit]
    else [TurnSpec(turns[0], apiKey)] + Session(turns[1..], apiKey)
  }

  /** A session runs the turns in order, one outcome per instruction; it
      stops exactly at the first exit keyword and never earlier, so without
      one every instruction gets its turn. */
  lemma {:induction false} SessionShape(turns: seq<TurnInput>, apiKey: string)
    ensures var s := Session(turns, apiKey);
            (forall j :: 0 <= j < |s| ==> s[j] == TurnSpec(turns[j], apiKey)) &&
            (forall j :: 0 <= j < |s| - 1 ==> !IsQuitCommand(turns[j].command)) &&
            (|s| < |turns| ==> s != [] && IsQuitCommand(turns[|s| - 1].command))
  {
    if turns != [] && !IsQuitCommand(turns[0].command) {
      SessionShape(turns[1..], apiKey);
      var s := Session(turns, apiKey);
      var rest := Session(turns[1..], apiKey);
      assert s == [TurnSpec(turns[0], apiKey)] + rest;
      forall j | 1 <= j < |s|
        ensures s[j] == TurnSpec(turns[j], apiKey)
      {
        assert s[j] == rest[j - 1] && turns[j] == turns[1..][j - 1];
      }
      forall j | 1 <= j < |s| - 1
        ensures !IsQuitCommand(turns[j].command)
      {
        assert turns[j] == turns[1..][j - 1];
      }
    }
  }

  /** The session ends at the first exit keyword, with it as its last turn. */
  lemma SessionEndsAtFirstQuit(turns: seq<TurnInput>, apiKey: string, q: nat)
    requires q < |turns| && IsQuitCommand(turns[q].command)
    requires forall j :: 0 <= j < q ==> !IsQuitCommand(turns[j].command)
    ensures |Session(turns, apiKey)| == q + 1
    ensures Session(turns, apiKey)[q] == Quit
  {
    SessionShape(turns, apiKey);
  }

  /** With the placeholder key, no turn of a session calls the service. */
  lemma PlaceholderKeyNeverGenerates(turns: seq<TurnInput>)
    ensures forall o :: o in Session(turns, PlaceholderKey) ==> !GenerationAttempted(o)
  {
  }

  /** A turn whose confirmation is anything but "y" or "Y" never runs code. */
  lemma DeclinedTurnsNeverExecute(turns: seq<TurnInput>, apiKey: string)
    ensures var s := Session(turns, apiKey);
            forall j :: 0 <= j < |s| && turns[j].confirmation != "y" && turns[j].confirmation != "Y"
              ==> !s[j].Executed?
  {
  }

  /** A fence holding only whitespace yields the empty string, which is
      falsy: the turn reports that no code was found and asks nothing. */
  lemma BlankFenceEndsTurn(t: TurnInput, apiKey: string, i: nat, k: nat)
    requires !IsQuitCommand(t.command) && apiKey != PlaceholderKey
    requires t.response.Some? && t.response.value != ""
    requires var text := t.response.value;
             OccursAt(text, Opener, i) &&
             (forall j :: 0 <= j < i ==> !OccursAt(text, Opener, j)) &&
             i + |Opener| <= k && OccursAt(text, Closer, k) &&
             (forall p :: i + |Opener| <= p < k ==> !OccursAt(text, Closer, p)) &&
             (forall p :: i + |Opener| <= p < k ==> IsSpace(text[p]))
    ensures TurnSpec(t, apiKey) == NoCode(t.response.value)
  {
    BlankFenceExtractsEmpty(t.response.value, i, k);
  }

  lemma BlankFenceExtractsEmpty(text: string, i: nat, k: nat)
    requires OccursAt(text, Opener, i)
    requires forall j :: 0 <= j < i ==> !OccursAt(text, Opener, j)
    requires i + |Opener| <= k && OccursAt(text, Closer, k)
    requires forall p :: i + |Opener| <= p < k ==> !OccursAt(text, Closer, p)
    requires forall p :: i + |Opener| <= p < k ==> IsSpace(text[p])
    ensures ExtractPythonCode(text) == Some("")
  {
    FencedResult(text, i, k);
    var body := text[i + |Opener|..k];
    forall p | 0 <= p < |body| ensures IsSpace(body[p]) {
      assert body[p] == text[i + |Opener| + p];
    }
  }

  /** How a session ends. */
  datatype SessionEnd = AttachFailed | QuitRequested | InputExhausted

  /** The loop body of `main` after the exit check: each gate leaves the
      turn as the source's `continue` does, and `exec_globals` is filled in
      step by step. */
  method RunTurn(t: TurnInput, apiKey: string) returns (o: Outcome)
    requires !IsQuitCommand(t.command)
    ensures o == TurnSpec(t, apiKey)
  {
    if apiKey == PlaceholderKey {
      return KeyRejected;
    }
    var raw := t.response;
    if Falsy(raw) {
      return GenerationFailed;
    }
    var code := ExtractPythonCode(raw.value);
    if Falsy(code) {
      return NoCode(raw.value);
    }
    if !Confirmed(t.confirmation) {
      return Cancelled(code.value);
    }
    if !t.host.editorOk {
      return SetupFailed(code.value);
    }
    var part := t.host.activeObject;
    if HybridShapeFactory !in part.exposes {
      match t.host.partSearch {
        case Some(hits) =>
          if |hits| > 0 {
            part := hits[0];
          }
        case None =>
      }
    }
    var ctx := BuildContext(part);
    var succeeded := t.host.exec(code.value, ctx);
    return Executed(code.value, ctx, succeeded);
  }

  /** The `exec_globals` dictionary as the source fills it: the fixed names
      first, then `hsf`, `sf` and `bodies`, each only when reading that member
      of the part does not raise. */
  method BuildContext(part: HostObject) returns (ctx: Context)
    ensures ctx == BindingContext(part)
  {
    ctx := map[
      Win32comName := Win32Com, CatiaName := Application, EditorName := Editor,
      PartName := ActivePart(part), SelectionName := EditorSelection,
      RequireGeosetName := RequireGeosetHelper, RequireBodyName := RequireBodyHelper,
      GetTopFaceName := GetTopFaceHelper];
    if HybridShapeFactory in part.exposes {
      ctx := ctx[HsfName := PartMember(HybridShapeFactory, part)];
    }
    if ShapeFactory in part.exposes {
      ctx := ctx[SfName := PartMember(ShapeFactory, part)];
    }
    if Bodies in part.exposes {
      ctx := ctx[BodiesName := PartMember(Bodies, part)];
    }
  }

  /** The session from instruction `i` on: `Quit` alone at an exit keyword,
      otherwise that turn followed by the session from `i + 1`. */
  lemma SessionStep(turns: seq<TurnInput>, i: nat, apiKey: string)
    requires i < |turns|
    ensures IsQuitCommand(turns[i].command) ==> Session(turns[i..], apiKey) == [Quit]
    ensures !IsQuitCommand(turns[i].command) ==>
              Session(turns[i..], apiKey) ==
              [TurnSpec(turns[i], apiKey)] + Session(turns[i + 1..], apiKey)
  {
    assert turns[i..][0] == turns[i] && turns[i..][1..] == turns[i + 1..];
  }

  /** The outcomes so far extended by turn `i` are still a prefix of the
      session. */
  lemma SessionPrefixStep(turns: seq<TurnInput>, i: nat, apiKey: string,
                          done: seq<Outcome>, whole: seq<Outcome>)
    requires i < |turns| && !IsQuitCommand(turns[i].command)
    requires done + Session(turns[i..], apiKey) == whole
    ensures (done + [TurnSpec(turns[i], apiKey)]) + Session(turns[i + 1..], apiKey) == whole
  {
    SessionStep(turns, i, apiKey);
    var o := TurnSpec(turns[i], apiKey);
    var rest := Session(turns[i + 1..], apiKey);
    assert (done + [o]) + rest == done + ([o] + rest);
  }

  /** `main`: attach, then loop over the operator's turns until an exit
      keyword. A session whose input runs out ends with `InputExhausted`. */
  method RunSession(attached: bool, turns: seq<TurnInput>, apiKey: string)
    returns (outcomes: seq<Outcome>, end: SessionEnd)
    ensures !attached ==> outcomes == [] && end == AttachFailed
    ensures attached ==> end != AttachFailed
    ensures attached ==> outcomes == Session(turns, apiKey)
    ensures attached ==> (end == QuitRequested <==> exists j :: 0 <= j < |turns| && IsQuitCommand(turns[j].command))
    ensures end == InputExhausted ==> |outcomes| == |turns|
  {
    outcomes := [];
    if !attached {
      return outcomes, AttachFailed;
    }
    end := InputExhausted;
    var i := 0;
    while i < |turns|
      invariant 0 <= i <= |turns| && |outcomes| == i
      invariant outcomes + Session(turns[i..], apiKey) == Session(turns, apiKey)
      invariant forall j :: 0 <= j < i ==> !IsQuitCommand(turns[j].command)
    {
      var t := turns[i];
      SessionStep(turns, i, apiKey);
      if IsQuitCommand(t.command) {
        outcomes := outcomes + [Quit];
        end := QuitRequested;
        return;
      }
      var o := RunTurn(t, apiKey);
      SessionPrefixStep(turns, i, apiKey, outcomes, Session(turns, apiKey));
      outcomes := outcomes + [o];
      i := i + 1;
    }
    assert turns[i..] == [];
    assert !exists j :: 0 <= j < |turns| && IsQuitCommand(turns[j].command);
  }
}
