# CATIA text-to-CAD agent: a Dafny model of its decision logic

The agent reads a natural-language instruction, asks a language model for a
Python script against the CATIA automation model, extracts the script from
the reply, asks the operator to confirm, and runs it in the live CATIA
session with a fixed set of names bound. This project models the
deterministic parts of `catia_text_to_cad_api.py` and proves what they
promise:

- **Code extractor** (`Extractor`, on `Text`): `extract_python_code`. The
  regular expression ```` ```python(.*?)``` ```` with DOTALL is stated as a
  leftmost-match predicate (`MatchAt`) and computed by an explicit search
  over `seq<char>`. `str.strip()` uses Python's full whitespace set.
- **Get-or-create helpers** (`Helpers`, on `Host`): `require_geoset` and
  `require_body`. They work on an `EntityCollection` class that holds a
  `seq` of `NamedEntity` objects and has a failing `Item(name)` lookup and
  an `Add()`. They are specified by a function `RequireNamed` on the list of
  names, which carries the idempotence lemmas.
- **Top-face policy** (`Helpers.GetTopFace`): clear the selection, add the
  pad, search its planar faces, and return a reference to item `Count` (the
  last hit). Each host call may raise, and a raise yields no face.
- **Turn logic of `main`** (`Agent`): the exit check, the placeholder-key
  gate, the generation and extraction exits, the y/n gate, part resolution
  with its fallback, step-by-step assembly of `exec_globals`, and the
  caught execution fault. `exec_globals` is a map keyed by the datatype
  `Global`, whose `Identifier` gives each key's Python name. `TurnSpec` and
  `Session` are the specification.
  `RunTurn`, `BuildContext` and `RunSession` are the imperative loop,
  proved equal to that specification.

Generation, the host's answers and `exec` are inputs to the model, given
per turn: a turn's `response: Option<string>`, and its `HostFacts`, which
include an `Executor` function saying whether a script runs to the end in
the session as that turn finds it.

Facts about `catia_text_to_cad_api.py` that the model follows:
- Only the first `` ```python `` opener and the nearest `` ``` `` after it
  count. Later fenced blocks are ignored.
- Generation failures are not typed. `call_deepseek_for_code` returns
  `None` for timeouts, non-200 statuses and transport errors alike, so the
  model has a single `GenerationFailed` outcome.
- An empty reply (`""`) ends the turn just as `None` does.
- The credential check compares the key with the literal placeholder
  `YOUR_API_KEY_HERE`.
- A fault while reaching the editor, before `exec`, is caught by the same
  handler as a fault of the script itself (`SetupFailed` in the model).

## Model

| member | source | states |
|---|---|---|
| `Text.FindFrom` | catia_text_to_cad_api.py:162 | the result is an occurrence of the pattern at or after the start, with none between the start and it; None means there is none at or after the start |
| `Text.Contains` | catia_text_to_cad_api.py:166 | Python's `in`: true exactly when the pattern occurs somewhere |
| `Text.Strip` | catia_text_to_cad_api.py:164 | `str.strip()`: a contiguous piece of the input with no whitespace at either end, and everything before and after that piece is whitespace; empty exactly when the input is all whitespace |
| `Text.Lower` | catia_text_to_cad_api.py:229 | same length, each letter A-Z lowered and every other character kept |
| `Extractor.FindFence` | catia_text_to_cad_api.py:162 | `re.search` semantics: a match at the leftmost position where the expression can match, with the lazy group ending at the nearest closer; None exactly when no position matches |
| `Extractor.NoFenceAfterOpenerWithoutCloser` | catia_text_to_cad_api.py:162 | if the first opener has no closer after it, the expression matches nowhere |
| `Extractor.HasCodeToken` | catia_text_to_cad_api.py:166 | true exactly when "hsf =" or "catia." occurs somewhere in the text |
| `Extractor.ExtractPythonCode` | catia_text_to_cad_api.py:161-168 | None exactly when there is no complete fence and neither "hsf =" nor "catia." occurs; without a fence the result is the text unchanged |
| `Extractor.FencedResult` | catia_text_to_cad_api.py:162-164 | with the first opener at i and the nearest closer at or after its end at k, the result is the stripped text strictly between them |
| `Extractor.BodyHasNoCloser` | catia_text_to_cad_api.py:162 | the group of a match never contains "```" |
| `Extractor.FencedResultIsClean` | catia_text_to_cad_api.py:162-167 | fenced code has no "```", no whitespace at either end, and differs from the raw text, so the fence takes precedence over the token fallback |
| `Host.IndexOf` | catia_text_to_cad_api.py:174 | the first position holding the name; None exactly when the name is absent |
| `Host.EntityCollection.Item` | catia_text_to_cad_api.py:174 | the lookup fails exactly when no entity has the name; otherwise it returns the first entity so named |
| `Host.EntityCollection.Add` | catia_text_to_cad_api.py:176 | appends exactly one fresh entity and returns it |
| `Host.Selection.Clear` | catia_text_to_cad_api.py:198 | the selection becomes empty |
| `Host.Selection.Add` | catia_text_to_cad_api.py:199 | the object is appended to the selection |
| `Host.Selection.Search` | catia_text_to_cad_api.py:200 | the selection becomes the hits of the search |
| `Host.Selection.Count` | catia_text_to_cad_api.py:201-203 | the number of selected objects, zero exactly when nothing is selected |
| `Host.Selection.Item` | catia_text_to_cad_api.py:203-205 | numbered from 1: every item is a selected object, `Item(1)` is the first and `Item(Count)` the last |
| `Helpers.RequireNamed` | catia_text_to_cad_api.py:172-186 | the returned slot holds the name; earlier names are kept; at most one name is added; nothing is added exactly when the name was present |
| `Helpers.RequireNamedThenItem` | catia_text_to_cad_api.py:172-186 | after get-or-create, `Item(name)` finds the entity that was returned |
| `Helpers.RequireNamedIdempotent` | catia_text_to_cad_api.py:172-186 | a second get-or-create with the same name returns the same slot and adds nothing |
| `Helpers.RequireNamedKeepsOthers` | catia_text_to_cad_api.py:172-186 | get-or-create for one name does not change what any other name finds |
| `Helpers.RequireIn` | catia_text_to_cad_api.py:173-178 | the collection's names become those of `RequireNamed`; prior entities are unchanged; a present name returns its entity and changes nothing; an absent name appends one fresh entity with that name |
| `Helpers.RequireGeoset` | catia_text_to_cad_api.py:172-178 | get-or-create in `HybridBodies`; `Bodies` is untouched |
| `Helpers.RequireBody` | catia_text_to_cad_api.py:180-186 | get-or-create in `Bodies`; `HybridBodies` is untouched |
| `Helpers.RequireBodyTwice` | catia_text_to_cad_api.py:180-186 | two calls with one name return the same body, and the second adds nothing |
| `Helpers.GetTopFace` | catia_text_to_cad_api.py:188-209 | a reference to the last planar face exactly when no step raises and the search found a face; otherwise None, never a raise; the selection ends as far as the steps got |
| `Agent.Falsy` | catia_text_to_cad_api.py:238-245 | Python's `not` on an optional string: true exactly for None and "" |
| `Agent.IsQuitCommand` | catia_text_to_cad_api.py:229 | the instruction quits exactly when it is "q" or "Q", or "exit" in any mix of cases |
| `Agent.Confirmed` | catia_text_to_cad_api.py:251-252 | only "y" and "Y" confirm; anything else, "yes" included, declines |
| `Agent.IdentifierInjective` | catia_text_to_cad_api.py:279-299 | distinct keys of the model's context have distinct Python identifiers, so it holds what the string-keyed `exec_globals` holds |
| `Agent.ResolvePart` | catia_text_to_cad_api.py:263-277 | the active object is kept when it exposes `HybridShapeFactory`; otherwise the first Part hit is used when there is one; otherwise the active object; never aborts |
| `Agent.BindingContext` | catia_text_to_cad_api.py:279-299 | the eight fixed names are always bound; `hsf`, `sf` and `bodies` are each bound exactly when the part exposes that member; `part` is the resolved part; nothing else is bound |
| `Agent.TurnSpec` | catia_text_to_cad_api.py:228-306 | quits exactly on "q"/"exit"; otherwise the turn is rejected exactly when the key is the placeholder, and any other key calls the service; no response ends the turn; no code ends it reporting the raw text; confirmation is asked exactly when the response and the extracted code are truthy; a decline cancels; a confirmed turn fails its setup exactly when the editor does not answer, and otherwise runs the extracted code against `BindingContext` of `ResolvePart` and reports what that turn's `exec` answers |
| `Agent.Session` | catia_text_to_cad_api.py:226-230 | a session never has more outcomes than turns |
| `Agent.SessionShape` | catia_text_to_cad_api.py:226-306 | outcomes follow the turns one for one; the loop stops only just after an exit keyword and never before it |
| `Agent.SessionEndsAtFirstQuit` | catia_text_to_cad_api.py:228-230 | the session ends with `Quit` at the first exit keyword |
| `Agent.PlaceholderKeyNeverGenerates` | catia_text_to_cad_api.py:232-234 | with the placeholder key, no turn of a session calls the service |
| `Agent.DeclinedTurnsNeverExecute` | catia_text_to_cad_api.py:251-254 | a turn answered with anything but "y"/"Y" never runs code |
| `Agent.BlankFenceEndsTurn` | catia_text_to_cad_api.py:240-245 | a first fence holding only whitespace gives empty code, so the turn reports no code and asks nothing |
| `Agent.BuildContext` | catia_text_to_cad_api.py:279-299 | the dictionary filled in step by step equals `BindingContext` |
| `Agent.RunTurn` | catia_text_to_cad_api.py:232-306 | the loop body with its `continue` exits computes `TurnSpec` |
| `Agent.RunSession` | catia_text_to_cad_api.py:217-306 | an attach failure ends at once and only then is the end `AttachFailed`; otherwise the outcomes are `Session`'s, and the loop ends by quitting exactly when some instruction is an exit keyword and by running out of input otherwise |

## Left out

- COM attachment (`GetActiveObject`, `ActiveEditor`, `ActiveObject`) is foreign Windows/COM code. Whether it answers is an input: `attached` for the session, `editorOk` for a turn, and the `Attach` fault step for `get_top_face`.
- `call_deepseek_for_code` and `SYSTEM_PROMPT` are left out: the HTTP request, its timeout, JSON decoding and the prompt text. A turn's generation result is an input `Option<string>`.
- `exec(code, exec_globals)` runs untrusted Python. Each turn's `HostFacts` carries its own `Executor`, which only reports success or a fault, so a script may succeed on one turn and fail on a later one. What a script does to the CATIA session is not modelled beyond that.
- Agent.Session: faults outside `Exception` are not modelled. A script that calls `exit()` raises `SystemExit`, and Ctrl-C raises `KeyboardInterrupt`. The handler at line 304 and the one in `get_top_face` at line 207 catch only `Exception`, so these end the program. An `Executor` only reports success or a caught fault, so `Agent.Session`, `Agent.SessionShape` and `Agent.RunSession` always go on to the next instruction after execution.
- The meaning of the host's searches is left out. The hits of "Topology.Face.Planar,sel" and "CATGmoSearch.Part,all" are inputs.
- Agent.ResolvePart: modelled on values. What the Part search leaves in the editor's selection is not modelled, because a script's own host changes would make it unknowable in any case.
- Helpers.RequireIn: only a failed lookup leads to `Add()`. In the source, a bare `except:` also sends any other host fault in `Item(name)` to `Add()`. Faults raised by `Add()` or by the name assignment are not modelled; they propagate as execution errors in the source.
- Host.EntityCollection.Item: it returns the first entity with the name. The host's choice among duplicate names is not documented here.
- Host.EntityCollection.Add: it names the new entity "" in place of the host's default name, which the helpers overwrite straight away.
- Helpers.GetTopFace: a step that raises is taken to leave the selection as it was before that step. The reference names the part that `pad.Parent.Parent` yields, passed in as an input.
- Text.Lower: it lowers only A-Z. No other character lowers to a single "q", "e", "x", "i", "t" or "y", so comparing the lowered input with "q", "exit" or "y" gives the same answer as Python's full `str.lower()`.
- Terminal I/O (`input`, `print`, the banner, the debug lines, `traceback.print_exc`) is left out. Operator input is the sequence of turns. When that sequence runs out, the session ends with `InputExhausted`; the source would raise `EOFError` from `input()` instead.
- Python's `re` module is modelled only for the one fixed pattern the extractor uses.
