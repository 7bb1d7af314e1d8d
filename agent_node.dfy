/** The two graph nodes (`retrieve_docs`, `generate_answer`), the retriever
    tool the agent may call, and the lazily built agent. The retriever, the
    chat model, the ReAct loop and Wikipedia are library code: the retriever is
    a function from query to documents, and the agent's `invoke` is a function
    passed in by the caller. */
module AgentNodes {
  import opened Wrappers
  import opened Documents
  import opened State
  import opened Text

  /** `retriever.invoke(query)`: documents in the retriever's order. */
  type Search = string -> seq<Document>

  /** The chat model, known only by name. */
  datatype Llm = Llm(model: string)

  /** A chat message; `content` is `None` for a message without content. */
  datatype Message = Message(role: string, content: Option<string>)

  function HumanMessage(text: string): Message {
    Message("human", Some(text))
  }

  /** What a tool runs when the agent calls it. */
  datatype ToolFunc =
    | RetrieverTool
    | WikipediaRun(topKResults: nat, lang: string)

  datatype Tool = Tool(name: string, description: string, func: ToolFunc)

  /** The value `create_react_agent(llm, tools=tools, prompt=...)` returns. */
  datatype Agent = ReactAgent(llm: Llm, tools: seq<Tool>)

  /** `agent.invoke({'messages': ...})`: the ReAct loop run by the library,
      returning the result dictionary. */
  type AgentInvoke = (Agent, seq<Message>) -> map<string, seq<Message>>

  const NoDocuments := "no documents found"
  const NoAnswer := "couldn't generate answer"
  /** The tool shows at most this many documents. */
  const MaxEntries := 8
  const Separator := "\n\n"

  function Min(a: int, b: int): int {
    if a <= b then a else b
  }

  // ---------------------------------------------------------------------
  // The retriever tool's text.

  /** The display title of the `i`-th document: its `title`, else its
      `source`, else `doc_<i>`; missing metadata counts as an empty mapping. */
  function Title(d: Document, i: nat): (t: string)
    ensures t != ""
    ensures HasTruthy(MetadataOf(d), "title") ==> t == MetadataOf(d)["title"]
    ensures !HasTruthy(MetadataOf(d), "title") && HasTruthy(MetadataOf(d), "source") ==>
              t == MetadataOf(d)["source"]
    ensures !HasTruthy(MetadataOf(d), "title") && !HasTruthy(MetadataOf(d), "source") ==>
              t == "doc_" + Digits(i)
  {
    var meta := MetadataOf(d);
    if HasTruthy(meta, "title") then meta["title"]
    else if HasTruthy(meta, "source") then meta["source"]
    else "doc_" + Digits(i)
  }

  /** One entry: `[i] title`, a newline, then the page content. */
  function Entry(d: Document, i: nat): string {
    "[" + Digits(i) + "] " + Title(d, i) + "\n" + d.pageContent
  }

  /** The entries for the first eight documents, numbered from 1. */
  function Entries(docs: seq<Document>): (es: seq<string>)
    ensures |es| == Min(|docs|, MaxEntries)
  {
    seq(Min(|docs|, MaxEntries), j requires 0 <= j < Min(|docs|, MaxEntries) => Entry(docs[j], j + 1))
  }

  /** The tool's whole answer for the retrieved documents. */
  function ToolOutput(docs: seq<Document>): string {
    if |docs| == 0 then NoDocuments else Join(Separator, Entries(docs))
  }

  /** The number an entry's `[n]` header shows, if it has one. */
  function EntryNumber(e: string): Option<nat> {
    if |e| > 0 && e[0] == '[' then
      var ds := DigitPrefix(e[1..]);
      if ds != [] && |e| > 1 + |ds| && e[1 + |ds|] == ']' then Some(ParseNat(ds)) else None
    else None
  }

  /** Entry `j` of the output (0-based) shows the number `j + 1` and is built
      from the `j`-th retrieved document: the entries keep the retriever's
      order and are numbered consecutively from 1. */
  lemma EntriesNumberedFromOne(docs: seq<Document>, j: nat)
    requires j < |Entries(docs)|
    ensures Entries(docs)[j] == Entry(docs[j], j + 1)
    ensures EntryNumber(Entries(docs)[j]) == Some(j + 1)
  {
    var e := Entries(docs)[j];
    var rest := "] " + Title(docs[j], j + 1) + "\n" + docs[j].pageContent;
    assert e[1..] == Digits(j + 1) + rest;
    DigitPrefixOfDigits(Digits(j + 1), rest);
    ParseDigits(j + 1);
  }

  /** The sentinel is returned exactly when the retriever found nothing: a
      non-empty result always starts with the `[1]` header. */
  lemma SentinelIffEmpty(docs: seq<Document>)
    ensures ToolOutput(docs) == NoDocuments <==> docs == []
  {
    if docs != [] {
      var es := Entries(docs);
      JoinStartsWithFirst(Separator, es);
      assert ToolOutput(docs)[0] == es[0][0] == '[';
    }
  }

  /** Documents after the eighth never reach the output. */
  lemma OnlyFirstEightShown(docs: seq<Document>)
    requires |docs| > MaxEntries
    ensures ToolOutput(docs) == ToolOutput(docs[..MaxEntries])
    ensures |Entries(docs)| == MaxEntries
  {
    assert Entries(docs) == Entries(docs[..MaxEntries]);
  }

  /** A single document gives its one entry and no separator. */
  lemma SingleDocument(d: Document)
    ensures ToolOutput([d]) == "[1] " + Title(d, 1) + "\n" + d.pageContent
  {
  }

  /** Between the entries stands exactly one blank line each, and nothing
      else is added. */
  lemma OutputLength(docs: seq<Document>)
    requires docs != []
    ensures |ToolOutput(docs)| ==
            TotalLength(Entries(docs)) + (Min(|docs|, MaxEntries) - 1) * |Separator|
  {
    JoinLength(Separator, Entries(docs));
  }

  // ---------------------------------------------------------------------
  // The answer read from the agent's result.

  /** `result.get('messages', [])` */
  function MessagesOf(result: map<string, seq<Message>>): seq<Message> {
    if "messages" in result then result["messages"] else []
  }

  /** The last message's content, or the fallback when there is no message or
      its content is missing or empty. The answer is never empty. */
  function AnswerFrom(messages: seq<Message>): (a: string)
    ensures a != ""
    ensures messages != [] && messages[|messages| - 1].content.Some? &&
            messages[|messages| - 1].content.value != "" ==>
              a == messages[|messages| - 1].content.value
    ensures a == NoAnswer <==>
              (messages == [] || messages[|messages| - 1].content == None ||
               messages[|messages| - 1].content.value in {"", NoAnswer})
  {
    var ans: Option<string> := if messages != [] then messages[|messages| - 1].content else None;
    if ans.Some? && ans.value != "" then ans.value else NoAnswer
  }

  /** The two tools handed to the agent, in this order. */
  function InitTools(): (tools: seq<Tool>)
    ensures |tools| == 2
    ensures tools[0].name == "retriever" && tools[0].func == RetrieverTool
    ensures tools[1].name == "wikipedia" && tools[1].func == WikipediaRun(3, "en")
  {
    [ Tool("retriever", "fetch passages from indexed vectorstore", RetrieverTool),
      Tool("wikipedia", "search in wiki", WikipediaRun(3, "en")) ]
  }

  class AgentNode {
    const retriever: Search
    const llm: Llm
    var agent: Option<Agent>
    /** How many times the agent has been built. */
    ghost var builds: nat

    ghost predicate Valid()
      reads this
    {
      && (agent.None? <==> builds == 0)
      && (agent.Some? ==> agent.value == BuiltAgent())
    }

    /** The agent `agent_build` creates: this node's model and its two tools. */
    function BuiltAgent(): Agent {
      ReactAgent(llm, InitTools())
    }

    constructor(retriever: Search, llm: Llm)
      ensures Valid()
      ensures this.retriever == retriever && this.llm == llm
      ensures agent.None? && builds == 0
    {
      this.retriever := retriever;
      this.llm := llm;
      agent := None;
      builds := 0;
    }

    /** `retrieve_docs`: a new state with the same question, the retriever's
      documents for it, and the default (empty) answer. */
    function RetrieveDocs(state: GraphState): (s: GraphState)
      ensures s.question == state.question
      ensures s.retrievedDocs == retriever(state.question)
      ensures s.answer == ""
    {
      GraphState(state.question, retriever(state.question))
    }

    /** `retriever_tool_fn`: the text the agent sees when it calls the
        retriever tool. */
    method RetrieverToolFn(query: string) returns (text: string)
      ensures text == ToolOutput(retriever(query))
      ensures text == NoDocuments <==> retriever(query) == []
    {
      var docs := retriever(query);
      SentinelIffEmpty(docs);
      if |docs| == 0 {
        return NoDocuments;
      }
      var shown := if |docs| <= MaxEntries then docs else docs[..MaxEntries];
      var merged: seq<string> := [];
      var i := 0;
      while i < |shown|
        invariant 0 <= i <= |shown| == Min(|docs|, MaxEntries)
        invariant merged == Entries(docs)[..i]
      {
        var d := shown[i];
        var meta := if d.metadata.Some? then d.metadata.value else map[];
        var title;
        if "title" in meta && meta["title"] != "" {
          title := meta["title"];
        } else if "source" in meta && meta["source"] != "" {
          title := meta["source"];
        } else {
          title := "doc_" + Digits(i + 1);
        }
        merged := merged + ["[" + Digits(i + 1) + "] " + title + "\n" + d.pageContent];
        i := i + 1;
      }
      assert merged == Entries(docs);
      text := Join(Separator, merged);
    }

    /** What the tool named `tool` returns for `query`; the Wikipedia search is
        a function supplied by the caller. */
    function InvokeTool(tool: Tool, query: string, wikipedia: (nat, string, string) -> string): (out: string)
      ensures tool.func == RetrieverTool ==> out == ToolOutput(retriever(query))
      ensures tool.func == RetrieverTool ==>
                (out == NoDocuments <==> retriever(query) == [])
      ensures tool.func.WikipediaRun? ==>
                out == wikipedia(tool.func.topKResults, tool.func.lang, query)
    {
      SentinelIffEmpty(retriever(query));
      match tool.func
      case RetrieverTool => ToolOutput(retriever(query))
      case WikipediaRun(k, lang) => wikipedia(k, lang, query)
    }

    /** The state `generate_answer` returns once the agent exists: question and
        documents carried over, and a non-empty answer. */
    function Generated(state: GraphState, invoke: AgentInvoke): (s: GraphState)
      ensures s.question == state.question
      ensures s.retrievedDocs == state.retrievedDocs
      ensures s.answer != ""
      ensures s.answer == AnswerFrom(MessagesOf(invoke(BuiltAgent(), [HumanMessage(state.question)])))
    {
      var result := invoke(BuiltAgent(), [HumanMessage(state.question)]);
      GraphState(state.question, state.retrievedDocs, AnswerFrom(MessagesOf(result)))
    }

    /** `agent_build`: wires the tools and the model into a new agent. */
    method AgentBuild()
      modifies this`agent, this`builds
      ensures agent == Some(BuiltAgent()) && builds == old(builds) + 1
      ensures Valid()
    {
      var tools := InitTools();
      agent := Some(ReactAgent(llm, tools));
      builds := builds + 1;
    }

    /** `generate_answer`: builds the agent only if there is none yet, asks it
        the question and wraps its last message as the answer. */
    method GenerateAnswer(state: GraphState, invoke: AgentInvoke) returns (s: GraphState)
      requires Valid()
      modifies this`agent, this`builds
      ensures Valid()
      ensures old(agent).Some? ==> agent == old(agent) && builds == old(builds)
      ensures old(agent).None? ==> builds == old(builds) + 1 == 1
      ensures s == Generated(state, invoke)
    {
      if agent.None? {
        AgentBuild();
      }
      var result := invoke(agent.value, [HumanMessage(state.question)]);
      var messages := MessagesOf(result);
      var ans: Option<string> := None;
      if messages != [] {
        var answerMsg := messages[|messages| - 1];
        ans := answerMsg.content;
      }
      s := GraphState(state.question, state.retrievedDocs,
                      if ans.Some? && ans.value != "" then ans.value else NoAnswer);
    }
  }

  /** Two questions answered by one node build the agent once; `builds` is
      the number of agents the node built. */
  method AnswerTwice(retriever: Search, llm: Llm, invoke: AgentInvoke, q1: string, q2: string)
    returns (s1: GraphState, s2: GraphState, ghost builds: nat)
    ensures builds == 1
    ensures s1.question == q1 && s2.question == q2
    ensures s1.retrievedDocs == retriever(q1) && s2.retrievedDocs == retriever(q2)
    ensures s1.answer != "" && s2.answer != ""
  {
    var node := new AgentNode(retriever, llm);
    s1 := node.GenerateAnswer(node.RetrieveDocs(GraphState(q1)), invoke);
    s2 := node.GenerateAnswer(node.RetrieveDocs(GraphState(q2)), invoke);
    builds := node.builds;
  }
}
