/** The vector store: four optional fields filled by the `create_*` methods,
    and two guards that refuse to hand out a retriever before the dense one
    exists. FAISS, BM25 scoring, embeddings and the ensemble's score fusion are
    library code: an index records only the documents it was built from, a
    retriever only its kind, its `k` and its weights, and running a retriever
    is a function passed in by the caller. */
module VectorStores {
  import opened Wrappers
  import opened Documents

  /** The embedding model the store is created with. */
  const EmbeddingModel := "all-MiniLM-L6-v2"
  /** `k` the BM25 retriever gets from its library before the store sets it. */
  const Bm25LibraryDefaultK := 4
  /** The `k` the store sets on its BM25 retriever. */
  const SparseK := 3
  /** The ensemble's weights: dense first, sparse second. */
  const DenseWeight := 0.6
  const SparseWeight := 0.4
  const NotInitialized := "Vectorstore not initilalized. call create_retriever method first"

  /** `FAISS.from_documents(documents, embedding)` */
  datatype DenseIndex = FaissIndex(documents: seq<Document>, embedding: string)

  datatype Retriever =
    | DenseRetriever(index: DenseIndex)
    | Bm25Retriever(documents: seq<Document>, k: nat)
    | EnsembleRetriever(retrievers: seq<Retriever>, weights: seq<real>)

  /** Running a retriever on a query (`retriever.invoke(query)`). */
  type Invoke = (Retriever, string) -> seq<Document>

  /** The hybrid retriever the store builds from a dense and a sparse one. */
  predicate IsHybrid(r: Retriever) {
    && r.EnsembleRetriever?
    && |r.retrievers| == 2
    && r.retrievers[0].DenseRetriever?
    && r.retrievers[1].Bm25Retriever? && r.retrievers[1].k == SparseK
    && r.weights == [DenseWeight, SparseWeight]
  }

  class VectorStore {
    const embedding: string
    var vectorstore: Option<DenseIndex>
    var retriever: Option<Retriever>
    var bm25retriever: Option<Retriever>
    var hybridRetriever: Option<Retriever>

    /** The dense retriever always wraps the current index; the sparse one
        always has `k == 3`; the hybrid one always lists a dense and a sparse
        retriever with weights 0.6 and 0.4. */
    ghost predicate Valid()
      reads this
    {
      && embedding == EmbeddingModel
      && (vectorstore.Some? <==> retriever.Some?)
      && (retriever.Some? ==> retriever.value == DenseRetriever(vectorstore.value))
      && (bm25retriever.Some? ==> bm25retriever.value.Bm25Retriever? && bm25retriever.value.k == SparseK)
      && (hybridRetriever.Some? ==> IsHybrid(hybridRetriever.value))
    }

    constructor()
      ensures Valid()
      ensures vectorstore.None? && retriever.None? && bm25retriever.None? && hybridRetriever.None?
    {
      embedding := EmbeddingModel;
      vectorstore := None;
      retriever := None;
      bm25retriever := None;
      hybridRetriever := None;
    }

    /** `create_retriever`: a new index over `documents` and a dense retriever
        on it; the other two fields are untouched. */
    method CreateRetriever(documents: seq<Document>)
      requires Valid()
      modifies this`vectorstore, this`retriever
      ensures Valid()
      ensures vectorstore == Some(FaissIndex(documents, EmbeddingModel))
      ensures retriever == Some(DenseRetriever(FaissIndex(documents, EmbeddingModel)))
    {
      vectorstore := Some(FaissIndex(documents, embedding));
      retriever := Some(DenseRetriever(vectorstore.value));
    }

    /** `create_bm25_retriever`: a sparse retriever over `documents` with
        `k` set to 3. */
    method CreateBm25Retriever(documents: seq<Document>)
      requires Valid()
      modifies this`bm25retriever
      ensures Valid()
      ensures bm25retriever == Some(Bm25Retriever(documents, SparseK))
    {
      var sparseRetriever := Bm25Retriever(documents, Bm25LibraryDefaultK);
      sparseRetriever := sparseRetriever.(k := SparseK);
      bm25retriever := Some(sparseRetriever);
    }

    /** `create_hybrid_retriever`: builds the dense and the sparse retriever
        only where they are missing, then an ensemble of the two. */
    method CreateHybridRetriever(documents: seq<Document>)
      requires Valid()
      modifies this`vectorstore, this`retriever, this`bm25retriever, this`hybridRetriever
      ensures Valid()
      ensures old(retriever).Some? ==> retriever == old(retriever) && vectorstore == old(vectorstore)
      ensures old(retriever).None? ==> retriever == Some(DenseRetriever(FaissIndex(documents, EmbeddingModel)))
      ensures old(bm25retriever).Some? ==> bm25retriever == old(bm25retriever)
      ensures old(bm25retriever).None? ==> bm25retriever == Some(Bm25Retriever(documents, SparseK))
      ensures retriever.Some? && bm25retriever.Some?
      ensures hybridRetriever ==
                Some(EnsembleRetriever([retriever.value, bm25retriever.value], [DenseWeight, SparseWeight]))
    {
      if retriever.None? {
        CreateRetriever(documents);
      }
      if bm25retriever.None? {
        CreateBm25Retriever(documents);
      }
      hybridRetriever := Some(EnsembleRetriever([retriever.value, bm25retriever.value], [DenseWeight, SparseWeight]));
    }

    /** `get_retriever`: an error while there is no dense retriever; otherwise
        the hybrid retriever, which is still `None` when only
        `create_retriever` has run. */
    method GetRetriever() returns (r: Result<Option<Retriever>, Error>)
      requires Valid()
      ensures r.Failure? <==> retriever.None?
      ensures r.Failure? ==> r.error == ValueError(NotInitialized)
      ensures r.Success? ==> r.value == hybridRetriever
      ensures r.Success? && r.value.Some? ==> IsHybrid(r.value.value)
    {
      if retriever.None? {
        return Failure(ValueError(NotInitialized));
      }
      return Success(hybridRetriever);
    }

    /** `retrieve`: an error while there is no dense retriever; otherwise what
        the dense retriever alone finds for `query`. `k` is accepted and not
        used. */
    method Retrieve(query: string, invoke: Invoke, k: int := 4) returns (r: Result<seq<Document>, Error>)
      requires Valid()
      ensures r.Failure? <==> retriever.None?
      ensures r.Failure? ==> r.error == ValueError(NotInitialized)
      ensures r.Success? ==> r.value == invoke(DenseRetriever(vectorstore.value), query)
    {
      if retriever.None? {
        return Failure(ValueError(NotInitialized));
      }
      return Success(invoke(retriever.value, query));
    }
  }

  /** A store with only a dense retriever hands out no hybrid one (`before`);
      hybrid builds over `second`, then over `first`, keep the dense retriever
      over `first` and the sparse one over `second` (`hybrid`). */
  method HybridBuiltOnce(first: seq<Document>, second: seq<Document>)
    returns (before: Result<Option<Retriever>, Error>, hybrid: Result<Option<Retriever>, Error>)
    ensures before == Success(None)
    ensures hybrid == Success(Some(EnsembleRetriever(
              [DenseRetriever(FaissIndex(first, EmbeddingModel)), Bm25Retriever(second, SparseK)],
              [DenseWeight, SparseWeight])))
  {
    var store := new VectorStore();
    store.CreateRetriever(first);
    before := store.GetRetriever();
    store.CreateHybridRetriever(second);
    store.CreateHybridRetriever(first);
    hybrid := store.GetRetriever();
  }
}
