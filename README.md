# Property-development assistant: verified model of its deterministic core

The system helps someone who buys, renovates and sells a property. A
chat agent works with a Supabase database that holds the numbers, documents
and a summary sheet for each property. This project models the
deterministic bookkeeping around the language model and the database. It
also proves properties of that model:

- **Numbers engine** (`tools/numbers_agent.py`, module `NumbersAgent`):
  - turns fetched line items into a map from key to optional amount;
  - computes the seven derived metrics (taxes, total costs, gross margin,
    net profit, ROI, urban ratio, price per m²), with absent values
    propagating;
  - runs the ordered anomaly checks;
  - applies fractional "what-if" deltas;
  - builds the net-profit sensitivity grid;
  - runs the bracketing-plus-bisection break-even search for the sale price.
- **Summary sheet** (`tools/summary_tools.py`, module `SummaryTools`):
  - resolves `a|b.c` selectors against document metadata;
  - runs the two passes of `compute_summary`: numbers and documents rows
    first, then formulas over a copy of the results.
- **Retrieval text handling** (`tools/rag_index.py`, module `RagIndex`):
  - whitespace normalisation;
  - the overlapping-window chunker;
  - the query tokenizer;
  - the substring-count lexical score;
  - the filter/sort/truncate ranking tail of `search_chunks`.
- **Document slots** (`tools/docs_tools.py`, module `DocsTools`): the
  first-match keyword classifier `propose_slot` and the storage key format.
- **Schema names** (`tools/utils.py` and `tools/property_tools.py`, modules
  `Utils` and `PropertyTools`): short ids and the three per-property schema
  names. The two files build these names independently, and the model proves
  that they agree.
- **Agent routing** (`agentic.py`, module `Agentic`):
  - the input node and the confirmation router, as a class whose methods
    update the state in place;
  - the filter that drops orphaned tool results;
  - the two routing predicates.

Two shared modules hold Python's string behaviour (`Strings`) and `None`-or-value
(`Maybe`).

The default arguments of the source (`tol=1.0` and `max_iter=60` for the
break-even search, `max_chars=2500` and `overlap=200` for the chunker,
`limit=30` for the search) are the defaults of the corresponding methods.
A delta that `float()` cannot convert is `None` in the model's delta map,
and `apply_deltas` skips it, as the source does.

Amounts are mathematical reals. A loop of the source is a method proved
equal to a specification function. The properties the code promises are
stated about those functions, as postconditions and lemmas.

Some consequences of the code that the proofs bring out:

- The `Reforma:Docs registro obra nueva` slot can never be proposed. Its
  keywords contain `Compra` keywords (`registro`, `impuesto`), and `Compra`
  is examined first (`DocsTools.ObraNuevaNeverProposed`).
- The router matches words as substrings and looks for confirm words before
  cancel words. So "no, look elsewhere" confirms, because "look" contains
  "ok" (`Agentic.SubstringConfirms`).
- In `break_even_precio`, whether `f(p)` is defined does not depend on `p`:
  the sale price is always set. So the second `insufficient_data` return and
  the `v_mid is None` exit can never happen. The model states both as proved
  assertions.
- `break_even_precio` stops widening the bracket after five expansions and
  then bisects, even when the bracket still shows no sign change
  (tools/numbers_agent.py:296-304). The model does the same.
- `_split_into_chunks` terminates only when `overlap < max_chars`. With a
  larger overlap and a text longer than `max_chars`, every pass restarts at
  position 0 (`RagIndex.ChunkLoopStalls`).
- With a negative `overlap`, the chunker skips text between chunks. The
  coverage lemmas therefore take `overlap >= 0`. The first-chunk and
  length facts hold for any `overlap < max_chars`.

## Model

| member | source | states |
|---|---|---|
| `NumbersAgent.Convert` | tools/numbers_agent.py:19-24 | a row's amount is present exactly when it is numeric, and is then that number |
| `NumbersAgent.ToMap` | tools/numbers_agent.py:11-25 | the row loop builds exactly the map `RowsToMap` describes |
| `NumbersAgent.ToMapKeys` | tools/numbers_agent.py:14-17 | a key is in the map iff some row carries it; rows without an item key are skipped |
| `NumbersAgent.ToMapLastWins` | tools/numbers_agent.py:11-25 | for duplicate keys the last row's amount is the one kept |
| `NumbersAgent.SafeDiv` | tools/numbers_agent.py:28-31 | the quotient is absent iff either operand is absent or the divisor is 0; otherwise quotient × divisor = dividend |
| `NumbersAgent.Sum` | tools/numbers_agent.py:57-64 | `_sum` is absent iff every addend is absent, and otherwise is the total of the present addends |
| `NumbersAgent.CostValues` | tools/numbers_agent.py:66-72 | the five cost components, in list order |
| `NumbersAgent.CostValuesSum` | tools/numbers_agent.py:57-72 | some cost is present iff a cost key is known, and the accumulated total equals the sum of the present costs |
| `NumbersAgent.CostesTotales` | tools/numbers_agent.py:66-72 | total costs are absent iff all five components are absent, else their sum with absent ones skipped |
| `NumbersAgent.DerivedMetrics` | tools/numbers_agent.py:34-99 | for each of the seven metrics, when it is present (both directions) and its value in terms of the inputs and the other metrics |
| `NumbersAgent.MessageInjective` | tools/numbers_agent.py:109-126 | distinct anomalies produce distinct warning texts |
| `NumbersAgent.NegativeMessageShape` | tools/numbers_agent.py:119-120 | a negative-input warning is the key followed by " es negativo" |
| `NumbersAgent.ValidateAnomalies` | tools/numbers_agent.py:102-127 | the warning loop appends exactly the warnings `Anomalies` lists |
| `NumbersAgent.AllChecks` | tools/numbers_agent.py:106-126 | there are twelve checks: range, the nine negatives, paid above price, negative profit |
| `NumbersAgent.Firing` | tools/numbers_agent.py:102-127 | keeping the checks that fire never lengthens the list |
| `NumbersAgent.FiringAppend` | tools/numbers_agent.py:102-127 | filtering the checks distributes over concatenation |
| `NumbersAgent.FiringSingle` | tools/numbers_agent.py:102-127 | a single check is kept exactly when it fires |
| `NumbersAgent.FiringMember` | tools/numbers_agent.py:102-127 | an anomaly is among the firing checks iff it is a check and it fires |
| `NumbersAgent.NegativeChecksAreFiring` | tools/numbers_agent.py:114-120 | the per-key negative loop emits exactly the firing negative checks, in key order |
| `NumbersAgent.AnomaliesInCheckOrder` | tools/numbers_agent.py:102-127 | warnings come in the fixed check order: range, negatives in key order, paid above price, negative profit |
| `NumbersAgent.AnomaliesExactly` | tools/numbers_agent.py:102-127 | an anomaly is reported iff its condition holds (absent values never warn), and there are at most twelve |
| `NumbersAgent.Scenario` | tools/numbers_agent.py:213-224 | no key is added; a key keeps its value when no delta mentions it, its value is absent, or its delta is not numeric; otherwise it becomes `v*(1+pct)`; a zero delta changes nothing |
| `NumbersAgent.ApplyDeltas` | tools/numbers_agent.py:213-224 | the delta loop produces exactly `Scenario` |
| `NumbersAgent.ZeroDeltasIdentity` | tools/numbers_agent.py:218-223 | deltas that are all zero or non-numeric give back the base map |
| `NumbersAgent.ComputeAndLog` | tools/numbers_agent.py:130-160 | returns the inputs map, its derived metrics and its anomalies |
| `NumbersAgent.WhatIf` | tools/numbers_agent.py:227-245 | the scenario has the base's keys; its metrics and anomalies are those of the shifted inputs |
| `NumbersAgent.GridRow` | tools/numbers_agent.py:256-260 | one grid row: one cell per cost delta, each the net profit of the two-delta scenario |
| `NumbersAgent.SensitivityGrid` | tools/numbers_agent.py:248-271 | `len(precio_vec)` rows of `len(costes_vec)` cells, cell (i, j) the net profit under price delta i and cost delta j |
| `NumbersAgent.GridOrigin` | tools/numbers_agent.py:254-261 | the zero/zero cell is the unmodified net profit |
| `NumbersAgent.PriceUpdateKeepsCosts` | tools/numbers_agent.py:281-285 | forcing the price leaves the tax rate, the cost presence and the cost sum unchanged |
| `NumbersAgent.NetProfitAtIsScenarioProfit` | tools/numbers_agent.py:281-285 | the closed form used by the solver is exactly `f(p)`, the net profit with the price forced to `p` |
| `NumbersAgent.NetProfitAtAffine` | tools/numbers_agent.py:281-285 | when defined, `f(p) = p(1 - pct) - costs` |
| `NumbersAgent.StartPrice` | tools/numbers_agent.py:288 | the start price is the sale price, or 100000 when that is absent or zero; never zero |
| `NumbersAgent.SameSignIsPositiveProduct` | tools/numbers_agent.py:297 | the sign test used is `v_lo * v_hi > 0` |
| `NumbersAgent.InitialBracket` | tools/numbers_agent.py:289-290 | `lo = max(1, p0/2)`, `hi = 1.5 p0` |
| `NumbersAgent.WidenedClosedForm` | tools/numbers_agent.py:297-302 | after n expansions the bracket is `lo·0.8^n`, `hi·1.2^n` |
| `NumbersAgent.ExpandBracket` | tools/numbers_agent.py:296-302 | at most five expansions; stopping early means a value is absent or the signs differ |
| `NumbersAgent.HalvedClosedForm` | tools/numbers_agent.py:317-322 | after n halvings the width times 2^n is the starting width |
| `NumbersAgent.Bisect` | tools/numbers_agent.py:306-325 | iterations stay within `max_iter`; the bracket halves each step and keeps a sign change; an early stop means `abs(f(root)) <= tol` |
| `NumbersAgent.BreakEvenPrecio` | tools/numbers_agent.py:274-326 | `insufficient_data` iff the tax rate is absent or all five cost components are; otherwise the reported profit is `f(root)`, iterations ≤ `max_iter`, and `abs(f(root)) <= tol` when stopped early |
| `NumbersAgent.WorkedScenario` | tools/numbers_agent.py:34-99 | on a worked example: costs 115000, taxes 16000, margin 85000, profit 69000, ROI 0.46 |
| `NumbersAgent.WorkedPriceCut` | tools/numbers_agent.py:213-224 | the same example after a 10% price cut has a profit of 50600 |
| `SummaryTools.ExtractFromMeta` | tools/summary_tools.py:29-48 | the nested alternative/path loops return exactly `Extract` |
| `SummaryTools.ResolvePath` | tools/summary_tools.py:35-42 | the path walk succeeds exactly when every step finds its key in a map, and then stops at the value the path names |
| `SummaryTools.FirstNumberSpec` | tools/summary_tools.py:33-48 | the result is absent iff no alternative yields a number, else it is the first alternative that does |
| `SummaryTools.SelectorPrefersEarlierAlternative` | tools/summary_tools.py:31-47 | a resolving first alternative wins; a failing one falls through to the rest |
| `SummaryTools.ResolveAppend` | tools/summary_tools.py:35-42 | resolving a path is resolving its prefix and then the remainder; a missing key or non-map fails |
| `SummaryTools.CommasIgnored` | tools/summary_tools.py:45 | commas are removed before parsing |
| `SummaryTools.SelectRows` | tools/summary_tools.py:88-89 | with a non-empty `only_items`, exactly the rows whose key is listed are kept; otherwise all |
| `SummaryTools.DocsValues` | tools/summary_tools.py:50-64 | one (name, value) pair per fetched document, in fetch order: the document's name and its metadata resolved with the selector |
| `SummaryTools.PresentValues` | tools/summary_tools.py:111 | at most one number per document; the list is empty iff no document yielded a number |
| `SummaryTools.PresentValuesMembers` | tools/summary_tools.py:111 | every number a document yielded is listed, and every listed number was yielded by some document |
| `SummaryTools.PresentValuesFirst` | tools/summary_tools.py:111 | the first listed number is that of the first document that yielded one |
| `SummaryTools.PresentValuesLast` | tools/summary_tools.py:111 | the last listed number is that of the last document that yielded one |
| `SummaryTools.Aggregate` | tools/summary_tools.py:112-118 | `sum` gives the total of the numbers, `latest` the last one, any other aggregation the first |
| `SummaryTools.SumRealsAppend` | tools/summary_tools.py:113-114 | the total of a concatenation is the sum of the totals |
| `SummaryTools.Pass1Fails` | tools/summary_tools.py:95-99 | once a numbers row without `selector.item_key` raises, the whole computation raises |
| `SummaryTools.FirstPass` | tools/summary_tools.py:94-123 | the first loop computes exactly `Pass1` |
| `SummaryTools.FormulaPass` | tools/summary_tools.py:125-135 | the formula loop computes exactly `Pass2` |
| `SummaryTools.ComputeSummary` | tools/summary_tools.py:81-141 | returns the two-pass result, or raises when the first pass does |
| `SummaryTools.Pass1Documented` | tools/summary_tools.py:94-123 | every result of the first pass has a provenance entry |
| `SummaryTools.Pass2Keys` | tools/summary_tools.py:125-135 | the formula pass adds result keys only for formula rows |
| `SummaryTools.EvaluatedFormulaStep` | tools/summary_tools.py:127-133 | a formula that evaluates sets its key to the value and records formula provenance over the updated results; other provenance entries stay |
| `SummaryTools.Pass2Documented` | tools/summary_tools.py:125-135 | the formula pass keeps every result documented and never drops a result key |
| `SummaryTools.SummaryDocumented` | tools/summary_tools.py:81-141 | the final summary documents every result and keeps the first pass's keys |
| `SummaryTools.Pass1Keys` | tools/summary_tools.py:94-123 | the first pass writes only keys of numbers or documents rows |
| `SummaryTools.FailingFormulaKeepsResults` | tools/summary_tools.py:130-135 | a failing formula leaves the results alone and records the error |
| `SummaryTools.EmptyDocumentsKeepsState` | tools/summary_tools.py:109-120 | a documents row without numeric values writes nothing |
| `RagIndex.ReplaceCarriageReturns` | tools/rag_index.py:12 | every `\r` becomes a space, nothing else changes |
| `RagIndex.Collapse` | tools/rag_index.py:13 | runs of whitespace become one space: no two adjacent whitespace characters remain |
| `RagIndex.CollapseBlank` | tools/rag_index.py:13 | whitespace alone collapses to one space, or stays empty |
| `RagIndex.CollapseCons` | tools/rag_index.py:13 | leading whitespace becomes one space, the first word is copied, and the rest collapses on its own |
| `RagIndex.TrimEnd` | tools/rag_index.py:14 | a prefix with no trailing whitespace, only whitespace dropped |
| `RagIndex.NormalizeTextNormalized` | tools/rag_index.py:11-14 | the output has no leading or trailing whitespace and no two consecutive whitespace characters |
| `RagIndex.NormalizeTextIdempotent` | tools/rag_index.py:11-14 | normalising twice is normalising once |
| `RagIndex.CollapseTrimJoins` | tools/rag_index.py:13-14 | collapsing and then stripping both ends gives the words joined by single spaces |
| `RagIndex.WordsIgnoreCarriageReturns` | tools/rag_index.py:12 | turning `\r` into spaces does not change the words |
| `RagIndex.NormalizeTextJoinsWords` | tools/rag_index.py:11-14 | `_normalize_text(s)` is `" ".join(s.split())` |
| `RagIndex.SplitIntoChunks` | tools/rag_index.py:17-30 | the chunking loop returns exactly `Chunks`; `overlap < max_chars` makes it terminate |
| `RagIndex.ChunkLoopStalls` | tools/rag_index.py:22-29 | with `overlap >= max_chars` and a text longer than `max_chars`, `start` is 0 after every pass and the window never reaches the end |
| `RagIndex.ChunksBounded` | tools/rag_index.py:19-28 | short text gives `[text]`; every chunk is at most `max_chars` long and non-empty for non-empty text |
| `RagIndex.ChunksStitch` | tools/rag_index.py:22-29 | dropping each later chunk's first `overlap` characters and concatenating gives back the text |
| `RagIndex.ChunksEnds` | tools/rag_index.py:22-28 | the first chunk starts the text and the last chunk ends it |
| `RagIndex.ChunksFromOverlap` | tools/rag_index.py:24-29 | each following chunk starts with the last `overlap` characters of the one before |
| `RagIndex.Sanitize` | tools/rag_index.py:93 | characters outside `[a-z0-9áéíóúüñ\s]` become spaces |
| `RagIndex.Words` | tools/rag_index.py:94 | `split()` yields non-empty whitespace-free words made of the input's characters |
| `RagIndex.WordsBlank` | tools/rag_index.py:94 | whitespace alone has no words |
| `RagIndex.WordsCons` | tools/rag_index.py:94 | the first word is the first maximal run of non-whitespace; the other words are those of what follows it |
| `RagIndex.WordsNonEmpty` | tools/rag_index.py:94 | a string with a non-whitespace character has a word |
| `RagIndex.LongWords` | tools/rag_index.py:94 | keeps exactly the words longer than one character |
| `RagIndex.Tokenize` | tools/rag_index.py:90-94 | a string is a token iff it is a word of the lower-cased, sanitised query longer than one character; tokens use only the allowed lower-case class |
| `RagIndex.CountContained` | tools/rag_index.py:97-103 | the score is between 0 and the number of tokens; it is the maximum iff every token occurs and 0 iff none does |
| `RagIndex.ScoreLexical` | tools/rag_index.py:97-103 | the loop counts the tokens, with multiplicity, that occur in the lower-cased text |
| `RagIndex.Scored` | tools/rag_index.py:156-172 | keeps exactly the rows with positive score, each with its own score |
| `RagIndex.SortByScore` | tools/rag_index.py:173 | the sorted hits are a permutation ordered by non-increasing score |
| `RagIndex.PyTake` | tools/rag_index.py:174 | Python's `[:limit]`, including negative limits |
| `RagIndex.SearchChunks` | tools/rag_index.py:155-174 | score, keep positives, sort descending, slice: exactly `Ranked` |
| `RagIndex.RankedProperties` | tools/rag_index.py:168-174 | at most `limit` hits, all scoring above 0 with their row's score, in non-increasing order |
| `RagIndex.RankedComplete` | tools/rag_index.py:168-174 | with a large enough limit every positive-scoring row is returned |
| `DocsTools.Score` | tools/docs_tools.py:22 | a group's score is positive iff one of its keywords is in the file name or the hint |
| `DocsTools.DocName` | tools/docs_tools.py:28 | the name is the capitalised first keyword found in the file name, or `Documento` when none is |
| `DocsTools.ProposeFromFirstMatch` | tools/docs_tools.py:20-30 | the first group in table order with a matching keyword decides the slot; with no match the default slot is returned |
| `DocsTools.KeyParts` | tools/docs_tools.py:8-15 | how each table key splits on `:` into group and subgroup |
| `DocsTools.ProposeSlotGroup` | tools/docs_tools.py:8-30 | the proposed group is always `Compra`, `Reforma` or `Venta` |
| `DocsTools.ProposeSlotDefault` | tools/docs_tools.py:20-30 | no keyword anywhere gives (`Compra`, "", `Contrato privado`) |
| `DocsTools.ObraNuevaNeverProposed` | tools/docs_tools.py:9-13 | the `Docs registro obra nueva` subgroup is never proposed |
| `DocsTools.StorageKeySegments` | tools/docs_tools.py:41 | the key `property/<pid>/<group>/<filename>` splits back into its parts |
| `Utils.ShortId` | tools/utils.py:6-7 | no `-`; a prefix of the hyphen-stripped id; length `min(8, non-hyphen characters)` |
| `Utils.ShortIdIdempotent` | tools/utils.py:6-7 | a short id is its own short id |
| `Utils.SchemasDistinct` | tools/utils.py:9-16 | a property's three schema names are pairwise distinct |
| `Utils.SchemaNameInjective` | tools/utils.py:9-16 | two properties share a schema name iff their short ids agree |
| `PropertyTools.ListFrameworks` | tools/property_tools.py:14-20 | the three names equal `docs_schema`, `nums_schema` and `sum_schema` of the same id |
| `Agentic.AgentState.PrepareInput` | agentic.py:99-109 | non-empty input appends exactly one user message and is removed; otherwise messages stay as they were. This is the node's own state dict; how the graph merges the returned state into its checkpointed state is graph wiring and is not modelled |
| `Agentic.LastHumanIndex` | agentic.py:119-123 | the position of the last user message, none after it |
| `Agentic.FindLastUserText` | agentic.py:118-123 | the backwards scan returns the last user message lower-cased, or "" |
| `Agentic.AnyWordIn` | agentic.py:126 | true iff some word occurs as a substring |
| `Agentic.AgentState.RouterNode` | agentic.py:112-137 | not awaiting: no change; confirm word: flag cleared, one note appended, proposal kept; else cancel word: flag cleared, proposal emptied, one note appended; else no change |
| `Agentic.NoUserMessageKeepsWaiting` | agentic.py:118-131 | with no user message neither word set matches |
| `Agentic.SubstringConfirms` | agentic.py:126-131 | "no, look elsewhere" contains both a confirm and a cancel word |
| `Agentic.Filtered` | agentic.py:145-151 | the output is a subsequence that keeps every non-tool message, and keeps a tool result only right after a tool-calling assistant message |
| `Agentic.FilterMessages` | agentic.py:145-151 | the filter loop computes exactly `Filtered` |
| `Agentic.FilteredNoToolRuns` | agentic.py:147-149 | of consecutive tool results only the first survives |
| `Agentic.ShouldCallTool` | agentic.py:247-251 | `tools` iff the last message is a tool-calling assistant message; raises on an empty conversation |
| `Agentic.ShouldContinue` | agentic.py:254-260 | `assistant` iff the conversation ends with a tool result |
| `Agentic.ToolAnswerReachesAssistant` | agentic.py:145-151 | a tool answer to a tool call routes back to the assistant and passes the filter |

## Left out

- Supabase reads and writes are not modelled. The fetched rows are
  parameters, and persistence is omitted because it cannot change a return
  value. This covers `get_numbers`, the snapshot writes, the summary upserts
  and the document queries.
- IEEE-754 rounding is not modelled; amounts are exact reals.
- Python's `float()` on strings is an uninterpreted parameter `parse`.
- `_safe_eval` is an uninterpreted `eval` parameter that returns a value or
  an error message.
- `_get_number` and the document fetch of `_get_docs_values` are parameters
  of `SummaryTools.Env`.
- Embeddings and cosine similarity are not modelled. Each chunk row carries
  its similarity as a number (0 when there is no vector).
- Case mapping covers ASCII and Latin-1 only. Python's full Unicode
  `lower()`/`capitalize()` are not modelled, including characters that map
  to two characters.
- `RagIndex.SortByScore`: ordering and permutation are proved, but stability
  (rows with equal scores keep their fetch order) is not stated.
- Message content that is not a string (converted with `str()` in the
  router) is not modelled. Contents are strings.
- `_ensure_msgs` is not modelled. The message list is always present in the
  model.
- The state keys `property_id` and `last_doc_ref` are not modelled; the
  modelled nodes never read them.
- `RagIndex.SplitIntoChunks` and `RagIndex.Chunks` require
  `0 < max_chars`. With `max_chars == 0` and a smaller overlap every chunk
  the source returns is empty. With `max_chars < 0` the slice `text[start:end]`
  has a negative end, which Python counts from the end of the text, so the
  chunks are cut from that end (for a text of length 10, `max_chars=-1` gives
  a first chunk without the last character). Neither case is modelled.
- A `None` text or query (`s or ""` in the source) is not modelled; texts
  are strings.
- These are not modelled:
  - charts, the Excel export, the PowerPoint summary and the UI;
  - the LLM calls in `assistant` and the `post_tool` JSON parsing;
  - the graph wiring;
  - `utcnow_iso`, which reads the clock;
  - text extraction and indexing.
