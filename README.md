# Function registry and function-calling turn, modelled in Dafny

This project models the two pieces of logic of a minimal function-calling chat
loop: the **function registry** (`FunctionRegistry` in `function_registry.py`)
and one **conversational turn** (`message_step` in `ai.py`).

- `registry.dfy`, module `Registry`: the registry is a class whose `functions`
  field is the ordered table of declarations (name, description, parameters)
  and optional bound implementation. Its two caches, `functionDescriptions` and
  `tokenLength`, start as `None` and are filled once. The pure logic is stated
  as functions over the table: `Load` (the constructor's table), `Describe`
  (the public schema), `FirstMatch` (first entry with a name), `Bind` (what
  `register_function` leaves or raises) and `Execute` (what `execute_function`
  returns or raises). The methods `RegisterFunction`, `GetFunctionDescriptions`
  and `GetTokenLength` update the object in place and are proved against those
  functions; `Valid()` is the invariant that a filled schema cache is the
  schema of the table and that the length is only measured after it.
- `ai.dfy`, module `Ai`: `MessageStep` appends to the caller-owned transcript
  (class `Transcript`) in a `while` loop. The chat endpoint is a scripted
  sequence of responses: the k-th call returns the k-th response. A ghost
  out-parameter records what each chat call was given. `Continue` and `Step`
  give the messages a turn appends and how it ends, and the lemmas beside them
  state the turn's length, contents, return value and error behaviour.
- `scenario.dfy`, module `AiScenario`: two client methods that use only the
  contracts. One is the "add 2+3" turn; the other shows that the caches stay
  valid after a registration and that a second measurement returns the first
  length.
- `wrappers.dfy`: `Option` and `Result`.

Behaviour of the source worth knowing:

- Binding a name that no entry carries raises `ValueError`
  (function_registry.py:47).
- Loading checks nothing beyond what `json.load` rejects. A missing file or
  malformed JSON raises from the read (function_registry.py:22-23, not
  modelled). A declaration missing a field is accepted and fails later with a
  `KeyError`.
- Dispatching a name whose first entry has no implementation raises
  `KeyError('func')` from the lookup; it does not return the not-found
  sentence (function_registry.py:103).
- The model's final plain-text reply is never appended to the transcript.
  A turn that ends normally grows the transcript by 1 plus the number of
  function calls (ai.py:33, ai.py:36).
- `message_step` returns `messages[-1]`: the user message, or the last
  function-result message. It never returns the model's reply (ai.py:39).
- A `KeyError` raised during dispatch propagates out of the turn. The user
  message and the function messages appended before it stay in the transcript.

## Model

| member | source | states |
|---|---|---|
| `Registry.FunctionRegistry.constructor` | function_registry.py:5-25 | the table is the loaded declarations, in order, with no implementation bound; both caches are unset |
| `Registry.FunctionRegistry.RegisterFunction` | function_registry.py:27-47 | on a present name, sets `func` on the first entry with that name and changes nothing else; on an absent name, raises `ValueError` with the source's message and leaves the table unchanged; the caches stay valid |
| `Registry.FunctionRegistry.GetFunctionDescriptions` | function_registry.py:49-69 | returns the schema of the table and caches it; once cached, later calls return the cached value unchanged |
| `Registry.FunctionRegistry.GetTokenLength` | function_registry.py:71-87 | on the first call, measures the schema with the given encoding, caching both; afterwards, returns the cached length whatever encoding is passed |
| `Registry.FirstMatch` | function_registry.py:42-45 | returns the index of the first entry with the name, or none exactly when no entry has it |
| `Registry.Execute` | function_registry.py:89-107 | a name no entry has yields exactly `"Function " + name + " not found."`; otherwise the first entry with the name is called with the arguments, or `KeyError('func')` is raised if it has no implementation; it raises nothing else |
| `Registry.FunctionRegistry.ExecuteFunction` | function_registry.py:89-107 | is `Execute` of the current table; reads the object and changes nothing |
| `Registry.DescribeLoad` | function_registry.py:61-68 | the schema of a freshly loaded table is exactly the declarations, one per entry and in order, and no entry is bound |
| `Registry.DescribeSameDeclarations` | function_registry.py:61-68 | the schema depends only on names, descriptions and parameters, never on `func` |
| `Registry.FirstMatchSameDeclarations` | function_registry.py:42-45 | first-match lookup depends only on the names, so binding never moves it |
| `Registry.BindFailsIffUnknown` | function_registry.py:42-47 | registration fails exactly when no entry carries the name, and the error is `ValueError` with the source's message |
| `Registry.BindFirstOnly` | function_registry.py:42-45 | registration binds `func` on the first matching entry only; length, names, descriptions and parameters are unchanged, and every other entry is identical |
| `Registry.BindKeepsDescriptions` | function_registry.py:44 | registration never changes the schema, so a cached schema stays correct |
| `Registry.BindTwiceLastWins` | function_registry.py:42-45 | registering a name twice gives the same table as registering only the second implementation |
| `Registry.ExecuteAfterBind` | function_registry.py:103-105 | after an implementation is bound to a name, dispatching that name calls it |
| `Registry.ExecuteAfterLoad` | function_registry.py:103-107 | on a freshly loaded table, a declared name raises `KeyError('func')` and any other name yields the not-found sentence |
| `Ai.CallsBeforeReply` | ai.py:29 | counts the function-call responses before the first response without a function call; the response at that index is the reply |
| `Ai.Continue` | ai.py:29-37 | the loop appends at most one message per function call before the reply; it raises nothing exactly when it appends one message per call |
| `Ai.ContinueRaised` | ai.py:32 | the loop stops early only at a call whose dispatch raises, and passes on that error |
| `Ai.ContinueAt` | ai.py:30-33 | the j-th appended message has role function, the j-th requested name and the registry's result for that call |
| `Ai.ContinueAnswers` | ai.py:32-33 | a reached call whose dispatch succeeds is answered by the next appended message |
| `Ai.ContinueStops` | ai.py:32 | a reached call whose dispatch raises ends the loop with that error and appends nothing for it |
| `Ai.StepAppends` | ai.py:24-37 | the turn appends the user message first and then only function messages, never the reply; it ends normally exactly when it appends 1 plus the number of function calls |
| `Ai.StepReturnsLastAppended` | ai.py:39 | the returned message is the user message when no function was called, otherwise the last function-result message |
| `Ai.UnknownNamesNeverRaise` | ai.py:32-33 | calls to unknown names do not stop the loop; each yields a function message whose content is the not-found sentence |
| `Ai.AllBoundNeverRaises` | ai.py:32 | when every declared function has an implementation bound, the turn never raises |
| `Ai.MessageStep` | ai.py:23-39 | the transcript becomes its old contents plus exactly the messages `Step` gives, so it is append-only; the outcome is `Step`'s; each chat call gets the transcript so far and the same memoised schema; only the schema cache of the registry changes |

## Left out

- Reading the declaration file with `json.load` is not modelled. The constructor takes the parsed declarations.
- Declarations missing `name`, `description` or `parameters` are not modelled. In the source they fail later with a `KeyError`.
- JSON numbers are integers only; floating point is not modelled.
- `GetTokenLength`: serialising the schema and running the tokenizer are not modelled. They are one parameter, `measure`, from the schema to a natural number.
- Implementations are total functions from arguments to a JSON value. Exceptions raised inside an implementation are not modelled, and neither is a keyword-binding `TypeError` from `func(**arguments)`.
- `Execute`: an implementation that is falsy (None, or a callable object whose `__bool__` or `__len__` makes it false) is not modelled; the source returns the not-found sentence for it.
- The chat endpoint (HTTP client, credentials, model and temperature settings) is not modelled. It is replaced by a scripted sequence of responses. A chat call that raises is not modelled; in the source that error propagates out of the turn, and the transcript keeps the user message and the function messages appended so far.
- `MessageStep`: requires the script to contain a response without a function call. The source loop has no bound, and a model that never stops requesting calls is not modelled.
- Parsing the model's argument string with `json.loads` is not modelled. Arguments arrive already parsed, and malformed argument text is not modelled.
- Logging of each message is not modelled, and neither is the `json.dumps` failure for a result that is not JSON-serialisable.
- The interactive entry point in `ai.py` is not modelled. It consists of input, printing and making the log directory.
- The web-search function in `function_library.py` is not modelled. It wraps a network client.
- Aliasing is not modelled: the source returns the cached schema list itself, so a caller could mutate the cache through it.
- The sandboxed code executor is not part of this model. Its source is not among the modelled files.
