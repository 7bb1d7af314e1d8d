# Agentic RAG pipeline: a Dafny model of its control and formatting core

The repository answers questions over user-supplied documents. It loads the
sources (URLs, text files, PDFs, PDF directories), splits them into chunks,
and indexes them in a dense (FAISS) and a sparse (BM25) retriever. An
ensemble of the two is the hybrid retriever. A two-node LangGraph pipeline
then does the rest: `retriever` fetches documents for the question, and
`generator` runs a ReAct agent. The agent can call a retriever tool and a
Wikipedia tool.

This project models the parts of that pipeline that the repository writes
itself:

- `graph_state.dfy` (`State`): the `GraphState` record. `question` is
  required; `retrievedDocs` defaults to the empty sequence and `answer` to
  the empty string.
- `agent_node.dfy` (`AgentNodes`): the node class `AgentNode`. Its
  `retrieve_docs` and `generate_answer` each return a fresh state. The
  retriever tool's text formatter (`retriever_tool_fn`) keeps its loop, and
  is proved equal to the specification function `ToolOutput`. The agent is
  built lazily; a ghost counter `builds` shows that it is built at most once.
- `graph.dfy` (`Graph`): `GraphBuilder`. `build` registers the nodes and
  edges and stores the compiled graph. `run` builds the graph only if there
  is none, then sends `GraphState(question)` through `retriever` and then
  `generator`. The lemma `PipelineSchedule` shows that walking the compiled
  graph from its entry visits exactly these two nodes and then reaches END.
- `vectorstore.dfy` (`VectorStores`): `VectorStore`, a state machine with
  four optional fields. The `create_*` methods fill them in, and the guards
  in `get_retriever` and `retrieve` check the dense retriever.
- `document_processor.dfy` (`DocumentProcessing`): `DocumentProcessor`.
  `load_from_documents` dispatches each source and grows one list in place.
  It is proved equal to the fold `LoadAll` over the per-source function
  `SourceDocs`. `process_documents` is load, then split.
- `text.dfy` (`Text`) models the Python built-ins the core relies on:
  `str(int)`, `str.join` and `str.lower`. `wrappers.dfy` holds
  `Option`/`Result`, and `documents.dfy` holds `Document`, its metadata and
  `ValueError`.

Library code and I/O appear as function values supplied by the caller:

- the retriever's `invoke` (`Search`, or `Invoke` in the vector store);
- the agent's `invoke` (`AgentInvoke`);
- the Wikipedia search;
- the four loaders and `Path.is_dir` (`Loaders`);
- the text splitter (`Split`).

Indexes and retrievers are values that record only what the repository sets
on them: the documents they were built from, `k`, and the ensemble's weights.

## Model

| member | source | states |
|---|---|---|
| `AgentNodes.Title` | src/nodes/agent_node.py:33-34 | the title is `title` when present and non-empty, else `source` when present and non-empty, else `doc_<i>`; a document without metadata counts as having an empty mapping; the title is never empty |
| `AgentNodes.AgentNode.RetrieverToolFn` | src/nodes/agent_node.py:27-36 | the loop over `docs[:8]` that appends one entry per document and joins them with a blank line returns exactly `ToolOutput(retriever(query))`, and it returns the sentinel exactly when the retriever found nothing |
| `AgentNodes.SentinelIffEmpty` | src/nodes/agent_node.py:29-36 | the output is `no documents found` if and only if the retriever returned no documents, because a non-empty result starts with the `[1]` header |
| `AgentNodes.EntriesNumberedFromOne` | src/nodes/agent_node.py:32-35 | entry `j` is `"[" + (j+1) + "] " + title + "\n" + page_content` built from the `j`-th document, so entries keep the retriever's order; reading its `[n]` header back gives `j + 1`, so entries are numbered consecutively from 1 |
| `AgentNodes.OnlyFirstEightShown` | src/nodes/agent_node.py:32 | with more than 8 documents the output has exactly 8 entries and equals the output for the first 8 documents alone |
| `AgentNodes.SingleDocument` | src/nodes/agent_node.py:35-36 | one document gives its single entry, `[1] title`, newline, content, with no separator |
| `AgentNodes.OutputLength` | src/nodes/agent_node.py:36 | the output is the entries plus exactly `min(8, n) - 1` separators of `"\n\n"`: nothing before the first entry or after the last |
| `Text.JoinLength` | src/nodes/agent_node.py:36 | `sep.join(parts)` has the length of all parts plus one separator between each two neighbours |
| `Text.ParseDigits` | src/nodes/agent_node.py:34-35 | the decimal rendering `f'{i}'` used in `[i]` and `doc_i` reads back as `i` |
| `AgentNodes.AnswerFrom` | src/nodes/agent_node.py:83-93 | the answer is the last message's content when that content is present and non-empty, and `couldn't generate answer` when there are no messages or the content is `None` or empty; so the answer is never empty |
| `AgentNodes.AgentNode.Generated` | src/nodes/agent_node.py:82-94 | the state after `generate_answer` keeps `question` and `retrieved_docs` unchanged and has a non-empty answer read from the agent's result for a single human message holding the question |
| `AgentNodes.AgentNode.RetrieveDocs` | src/nodes/agent_node.py:18-23 | the new state has the input question, the retriever's documents for that question, and the default empty answer |
| `AgentNodes.InitTools` | src/nodes/agent_node.py:25-52 | the agent gets two tools in this order: `retriever`, running the formatter, and `wikipedia`, with 3 results in English |
| `AgentNodes.AgentNode.InvokeTool` | src/nodes/agent_node.py:37-50 | calling the retriever tool yields exactly the retriever tool's formatted output for what the retriever finds, which is the sentinel exactly when it finds nothing; calling the Wikipedia tool yields the supplied search's answer for its `top_k_results`, its language and the query |
| `AgentNodes.AgentNode.constructor` | src/nodes/agent_node.py:13-16 | stores the retriever and the model; no agent exists yet |
| `AgentNodes.AgentNode.AgentBuild` | src/nodes/agent_node.py:54-76 | sets `agent` to the ReAct agent over this node's model and the two tools, counting one more build |
| `AgentNodes.AgentNode.GenerateAnswer` | src/nodes/agent_node.py:78-94 | builds the agent only when `agent` is `None`, so an existing agent is kept and not rebuilt, and returns `Generated(state, invoke)` |
| `AgentNodes.AnswerTwice` | src/nodes/agent_node.py:78-82 | two questions on one node build the agent exactly once; each state keeps its own question and its own retrieved documents and has a non-empty answer |
| `Graph.PipelineSchedule` | src/graph_builder/graph.py:13-19 | a graph with nodes `retriever`, `generator`, entry `retriever` and edges `retriever -> generator -> END` runs `retriever`, then `generator`, then stops |
| `Graph.GraphBuilder.constructor` | src/graph_builder/graph.py:6-8 | creates the node object over the retriever and model; the graph is unset |
| `Graph.GraphBuilder.Build` | src/graph_builder/graph.py:10-22 | registers exactly the two nodes with entry `retriever` and edges `retriever -> generator -> END`, stores the compiled graph in `graph` and returns that same value |
| `Graph.GraphBuilder.Run` | src/graph_builder/graph.py:25-29 | builds only when `graph` is unset, so a second run does not rebuild; the result is `generate_answer(retrieve_docs(GraphState(question)))`, so the output question is the input question, the documents are the retriever's for that question, and the answer is non-empty |
| `Graph.RunTwice` | src/graph_builder/graph.py:25-29 | two runs on one builder build the graph exactly once and the agent exactly once; each returns its own question, its own retrieved documents and a non-empty answer |
| `VectorStores.VectorStore.constructor` | src/vectorstore/vectorstore.py:8-13 | `vectorstore`, `retriever`, `bm25retriever` and `hybrid_retriever` all start unset |
| `VectorStores.VectorStore.CreateRetriever` | src/vectorstore/vectorstore.py:15-24 | builds a new index over the documents and a dense retriever on it, and touches nothing else |
| `VectorStores.VectorStore.CreateBm25Retriever` | src/vectorstore/vectorstore.py:26-29 | stores a sparse retriever over the documents with `k` set to 3 |
| `VectorStores.VectorStore.CreateHybridRetriever` | src/vectorstore/vectorstore.py:31-39 | builds the dense retriever only if it is absent and the sparse one only if it is absent, so a second call with other documents keeps both; afterwards all three retrievers are set, and the hybrid one lists dense (weight 0.6) before sparse (weight 0.4) |
| `VectorStores.VectorStore.GetRetriever` | src/vectorstore/vectorstore.py:42-48 | raises `ValueError` exactly when the dense retriever is unset; otherwise returns `hybrid_retriever`, which is still unset if only `create_retriever` ran |
| `VectorStores.VectorStore.Retrieve` | src/vectorstore/vectorstore.py:50-60 | raises `ValueError` exactly when the dense retriever is unset; otherwise returns what the dense retriever alone finds for the query, whatever `k` is |
| `VectorStores.HybridBuiltOnce` | src/vectorstore/vectorstore.py:31-48 | with only a dense retriever, `get_retriever` returns no hybrid retriever; after hybrid builds over other documents and then over the first ones, the hybrid retriever keeps the dense retriever over the first documents and the sparse one over the second, weighted 0.6 and 0.4 |
| `DocumentProcessing.DocumentProcessor.constructor` | src/data_ingestion/document_processor.py:18-29 | chunk size 500 and overlap 50 by default; the arguments are stored unchanged and configure the splitter |
| `DocumentProcessing.SourceDispatch` | src/data_ingestion/document_processor.py:59-72 | one source raises exactly when it is neither a directory nor has a `.txt` or `.pdf` suffix, whatever its URL prefix, and the message names the source; a directory wins over the suffix; the suffix comparison ignores case; a URL's own documents come first |
| `DocumentProcessing.UrlWithoutFileSuffixRaises` | src/data_ingestion/document_processor.py:59-72 | `https://example.com/page`, when it is not a directory, is loaded as a URL and still raises `unsupported source type`, because the URL branch has no `continue` |
| `DocumentProcessing.DocumentProcessor.LoadFromDocuments` | src/data_ingestion/document_processor.py:51-73 | the loop that extends one list source by source returns exactly `LoadAll(sources, Dispatch(io))`, including its error on the first unsupported source |
| `DocumentProcessing.LoadAllAppend` | src/data_ingestion/document_processor.py:57-73 | loading `a + b` is loading `a`, then `b`, with the results concatenated in order; the first error wins |
| `DocumentProcessing.LoadStep` | src/data_ingestion/document_processor.py:58-67 | when a supported source's URL documents and then its selected loader's documents are appended to what the earlier sources loaded, the list equals loading the earlier sources followed by this one |
| `DocumentProcessing.AllSupportedConcatenates` | src/data_ingestion/document_processor.py:57-73 | when no source raises, the result is the in-order concatenation of each source's documents |
| `DocumentProcessing.FirstUnsupportedRaises` | src/data_ingestion/document_processor.py:68-72 | the first unsupported source decides the outcome: a `ValueError` naming it, whatever follows, and no list is returned |
| `DocumentProcessing.DocumentProcessor.SplitDocuments` | src/data_ingestion/document_processor.py:75-81 | the chunks are the splitter's output for this processor's chunk size and overlap |
| `DocumentProcessing.DocumentProcessor.ProcessDocuments` | src/data_ingestion/document_processor.py:83-91 | `process_documents(s)` fails exactly when loading fails, with the same error; otherwise it is `split_documents(load_from_documents(s))` |

## Left out

- Score fusion, FAISS similarity, BM25 scoring and embeddings are library
  code. Retrievers are functions from query to documents; the model records
  only weights and `k` and states no fusion formula.
- The ReAct loop, the chat model and the Wikipedia API are foreign calls.
  The agent's `invoke` is a function that returns the result dictionary. The
  system prompt is not modelled: it is text for the model, not code. Its
  rule to consult Wikipedia only when nothing is found is not enforced by
  any code. The code has no step bound, so none is modelled.
- Loaders, `Path.is_dir` and the text splitter are functions keyed by the
  source string. Their own failures (network, missing file, a splitter
  rejecting an overlap larger than the chunk size) are not modelled.
- The directory loader receives `str(Path(src))`. The model keys it by
  `src`, which is equivalent for a function of the source.
- `Path.suffix` is modelled as the classic CPython rule on the last
  `/`-separated component, with trailing slashes removed. `Path`'s
  collapsing of `.` components is not modelled.
- `str.lower` is modelled on ASCII letters only. That is enough to decide
  the comparisons with `.txt` and `.pdf`.
- Metadata values are modelled as strings, and their truthiness as
  non-emptiness. Non-string values (numbers, lists) are not modelled. A
  message's content is modelled as an optional string; LangChain's
  list-of-blocks content is not modelled.
- `AgentNode` takes a retriever function. The `None` that `get_retriever`
  can return, and the error a node would then raise when it calls it, is
  not representable there.
- `run` returns LangGraph's result dictionary; the model returns the final
  `GraphState`, which has the same three fields.
- Truthiness tests on `self.graph`, `self.agent`, `self.retriever` and
  `self.bm25retriever` are modelled as tests for `None`.
- The default of `load_from_documents`'s `sources` parameter is the typing
  object `List[str]` itself, so a call without arguments fails while
  iterating it before any source is loaded. The model has no default and
  does not model that failure; the only caller always passes the sources.
- The `print` in the processor's constructor, the Streamlit front end and
  the configuration module (credentials, model name, environment) are I/O
  or configuration.
- Where the design intent differs from the code, the model follows the code:
  - `retrieve` queries the dense retriever, not the hybrid one, and ignores
    `k`.
  - The guards raise `ValueError` after checking the dense retriever.
  - A URL also goes through the path checks.
