/**
 * The two pipeline nodes of llama_modular_rag/retrieval.py: the retriever,
 * which stores the similarity-search result in the state, and the context
 * builder, which keeps the longest prefix of the retrieved documents that
 * fits the token budget and joins their labelled texts.
 *
 * Costs are counted in quarter tokens: a document of `w` words is estimated
 * at `0.75 * w` tokens, that is `3 * w` quarter tokens, and the budget of
 * `m` tokens is `4 * m` quarter tokens. Every estimate is a multiple of 0.75,
 * so this integer account agrees exactly with the floating-point one.
 */
module Retrieval {
  import opened Wrappers
  import opened Errors
  import opened Config
  import opened Strings
  import opened State

  /**
   * `document_retriever`: reads the query, asks the store for the
   * `RetrievalTopK` most similar chunks and stores them unchanged under
   * `documents`; every other key keeps its value. A state without a query
   * raises `KeyError`.
   */
  function DocumentRetriever(state: RAGState, search: (string, nat) -> seq<Document>): (r: Result<RAGState, Error>)
    ensures r.Failure? <==> state.query.None?
    ensures r.Failure? ==> r.error == KeyError("query")
    ensures r.Success? ==>
      && r.value.documents == Some(search(state.query.value, RetrievalTopK))
      && Fields(r.value) == Fields(state) + {DocumentsField}
      && SameExcept(state, r.value, DocumentsField)
  {
    match state.query
    case None => Failure(KeyError("query"))
    case Some(q) => Success(state.(documents := Some(search(q, RetrievalTopK))))
  }

  /** Estimated cost of one document, in quarter tokens. */
  function Cost(d: Document): (c: nat)
  {
    3 * WordCount(d.pageContent)
  }

  /** The estimated cost of each document, in order. */
  function Costs(docs: seq<Document>): (cs: seq<nat>)
    ensures |cs| == |docs|
    ensures forall i | 0 <= i < |docs| :: cs[i] == Cost(docs[i])
  {
    seq(|docs|, i requires 0 <= i < |docs| => Cost(docs[i]))
  }

  function Sum(cs: seq<nat>): (total: nat)
  {
    if cs == [] then 0 else cs[0] + Sum(cs[1..])
  }

  /** Estimated cost of a run of documents, in quarter tokens. */
  function TotalCost(docs: seq<Document>): (total: nat)
  {
    Sum(Costs(docs))
  }

  lemma {:induction false} SumAppend(a: seq<nat>, b: seq<nat>)
    ensures Sum(a + b) == Sum(a) + Sum(b)
  {
    if a == [] {
      assert a + b == b;
    } else {
      assert (a + b)[0] == a[0] && (a + b)[1..] == a[1..] + b;
      SumAppend(a[1..], b);
    }
  }

  lemma SumCons(c: nat, rest: seq<nat>)
    ensures Sum([c] + rest) == c + Sum(rest)
  {
    assert ([c] + rest)[0] == c && ([c] + rest)[1..] == rest;
  }

  /** A longer prefix never costs less. */
  lemma PrefixSumMonotone(cs: seq<nat>, m: nat, n: nat)
    requires m <= n <= |cs|
    ensures Sum(cs[..m]) <= Sum(cs[..n])
  {
    assert cs[..n] == cs[..m] + cs[m..n];
    SumAppend(cs[..m], cs[m..n]);
  }

  /** The cost of the first `n` documents is the sum of their costs. */
  lemma PrefixCost(docs: seq<Document>, n: nat)
    requires n <= |docs|
    ensures TotalCost(docs[..n]) == Sum(Costs(docs)[..n])
  {
    assert Costs(docs[..n]) == Costs(docs)[..n];
  }

  /**
   * The walk of `context_builder`'s loop over the documents' costs: with `used`
   * quarter tokens already spent, keep the next document unless it pushes the
   * total strictly past `budget`, and stop at the first one that does.
   */
  function KeptFrom(costs: seq<nat>, used: nat, budget: nat): (k: nat)
    ensures k <= |costs|
  {
    if costs == [] || used + costs[0] > budget then 0
    else 1 + KeptFrom(costs[1..], used + costs[0], budget)
  }

  /** One step of the walk: a document that fits is kept and the walk goes on with the total raised by its cost. */
  lemma KeptFromStep(costs: seq<nat>, used: nat, budget: nat)
    requires costs != [] && used + costs[0] <= budget
    ensures KeptFrom(costs, used, budget) == 1 + KeptFrom(costs[1..], used + costs[0], budget)
  {
  }

  /** The number of documents the context keeps under a budget of `maxTokens` tokens. */
  function KeptCount(docs: seq<Document>, maxTokens: nat): (k: nat)
    ensures k <= |docs|
  {
    KeptFrom(Costs(docs), 0, 4 * maxTokens)
  }

  /**
   * The block a kept document contributes, labelled with its 1-based position:
   * the numeral between the three-character heading and ":\n" reads back as
   * `index + 1`, and the block ends with the content and a newline.
   */
  function Label(index: nat, content: string): (block: string)
    ensures |block| >= |content| + 6
    ensures AllDigits(block[3..|block| - |content| - 3]) && DecimalValue(block[3..|block| - |content| - 3]) == index + 1
    ensures block[|block| - |content| - 1..|block| - 1] == content && block[|block| - 1] == '\n'
  {
    var numeral := NatToDecimal(index + 1);
    var block := "\U{BB38}\U{C11C} " + numeral + ":\n" + content + "\n";
    assert block[3..|block| - |content| - 3] == numeral;
    assert block[|block| - |content| - 1..|block| - 1] == content;
    DecimalRoundTrip(index + 1);
    block
  }

  function Labelled(docs: seq<Document>): (parts: seq<string>)
    ensures |parts| == |docs|
    ensures forall i | 0 <= i < |docs| :: parts[i] == Label(i, docs[i].pageContent)
  {
    seq(|docs|, i requires 0 <= i < |docs| => Label(i, docs[i].pageContent))
  }

  /** The context the builder produces from `docs` under a budget of `maxTokens` tokens. */
  function BuildContext(docs: seq<Document>, maxTokens: nat): (context: string)
    ensures KeptCount(docs, maxTokens) > 0 ==> Label(0, docs[0].pageContent) <= context
  {
    JoinWith("\n", Labelled(docs[..KeptCount(docs, maxTokens)]))
  }

  /**
   * `context_builder`: sets `context` to the labelled, budget-limited join of
   * the documents and leaves every other key as it was. Missing or empty
   * documents give the empty context.
   */
  method ContextBuilder(state: RAGState) returns (r: RAGState)
    ensures r == state.(context := Some(BuildContext(DocumentsOf(state), ContextMaxTokens)))
  {
    var documents := DocumentsOf(state);
    if |documents| == 0 {
      return state.(context := Some(""));
    }
    var budget := 4 * ContextMaxTokens;
    ghost var costs := Costs(documents);
    var contextParts: seq<string> := [];
    var tokenCount: nat := 0;
    var i := 0;
    while i < |documents|
      invariant 0 <= i <= |documents|
      invariant contextParts == Labelled(documents[..i])
      invariant tokenCount == Sum(costs[..i])
      invariant KeptCount(documents, ContextMaxTokens) == i + KeptFrom(costs[i..], tokenCount, budget)
    {
      var content := documents[i].pageContent;
      var approxTokens := 3 * WordCount(content);
      assert approxTokens == costs[i];
      if tokenCount + approxTokens > budget {
        break;
      }
      LabelledSnoc(documents, i);
      WalkStep(costs, i, tokenCount, budget);
      contextParts := contextParts + [Label(i, content)];
      tokenCount := tokenCount + approxTokens;
      i := i + 1;
    }
    assert KeptCount(documents, ContextMaxTokens) == i;
    var context := JoinWith("\n", contextParts);
    r := state.(context := Some(context));
  }

  lemma LabelledSnoc(docs: seq<Document>, i: nat)
    requires i < |docs|
    ensures Labelled(docs[..i + 1]) == Labelled(docs[..i]) + [Label(i, docs[i].pageContent)]
  {
  }

  /** Keeping the document at position `i` adds its cost to the running total and moves the walk one place on. */
  lemma WalkStep(costs: seq<nat>, i: nat, used: nat, budget: nat)
    requires i < |costs| && used == Sum(costs[..i]) && used + costs[i] <= budget
    ensures Sum(costs[..i + 1]) == used + costs[i]
    ensures KeptFrom(costs[i..], used, budget) == 1 + KeptFrom(costs[i + 1..], used + costs[i], budget)
  {
    assert costs[..i + 1] == costs[..i] + [costs[i]];
    SumAppend(costs[..i], [costs[i]]);
    SumCons(costs[i], []);
    assert costs[i..][0] == costs[i] && costs[i..][1..] == costs[i + 1..];
    KeptFromStep(costs[i..], used, budget);
  }

  /** The costs the walk keeps together stay within the budget. */
  lemma {:induction false} KeptFromWithinBudget(costs: seq<nat>, used: nat, budget: nat)
    requires used <= budget
    ensures used + Sum(costs[..KeptFrom(costs, used, budget)]) <= budget
  {
    var k := KeptFrom(costs, used, budget);
    if k == 0 {
      assert costs[..k] == [];
    } else {
      var rest := costs[1..];
      KeptFromStep(costs, used, budget);
      KeptFromWithinBudget(rest, used + costs[0], budget);
      assert costs[..k] == [costs[0]] + rest[..k - 1];
      SumCons(costs[0], rest[..k - 1]);
    }
  }

  /** The walk stops only at the end or at a cost that would push the total strictly past the budget. */
  lemma {:induction false} KeptFromMaximal(costs: seq<nat>, used: nat, budget: nat)
    ensures var k := KeptFrom(costs, used, budget);
            k < |costs| ==> used + Sum(costs[..k + 1]) > budget
  {
    var k := KeptFrom(costs, used, budget);
    if k < |costs| {
      if used + costs[0] > budget {
        assert costs[..1] == [costs[0]] + [];
        SumCons(costs[0], []);
      } else {
        var rest := costs[1..];
        KeptFromStep(costs, used, budget);
        KeptFromMaximal(rest, used + costs[0], budget);
        assert costs[..k + 1] == [costs[0]] + rest[..k];
        SumCons(costs[0], rest[..k]);
      }
    }
  }

  /**
   * The kept documents are exactly the longest prefix that fits: a prefix of
   * `n` documents is kept if and only if its total estimate is at most the
   * budget. So a total equal to the budget is kept, and once one document is
   * dropped no later one is kept, however small.
   */
  lemma KeptIsLongestFittingPrefix(docs: seq<Document>, maxTokens: nat, n: nat)
    requires n <= |docs|
    ensures n <= KeptCount(docs, maxTokens) <==> TotalCost(docs[..n]) <= 4 * maxTokens
  {
    var costs := Costs(docs);
    var k := KeptCount(docs, maxTokens);
    PrefixCost(docs, n);
    KeptFromWithinBudget(costs, 0, 4 * maxTokens);
    KeptFromMaximal(costs, 0, 4 * maxTokens);
    if n <= k {
      PrefixSumMonotone(costs, n, k);
    } else {
      PrefixSumMonotone(costs, k + 1, n);
    }
  }

  /** When every document fits together, all of them are kept, including a total exactly at the budget. */
  lemma AllKeptWhenTotalFits(docs: seq<Document>, maxTokens: nat)
    requires TotalCost(docs) <= 4 * maxTokens
    ensures KeptCount(docs, maxTokens) == |docs|
  {
    assert docs[..|docs|] == docs;
    KeptIsLongestFittingPrefix(docs, maxTokens, |docs|);
  }

  /** The context is empty exactly when no document is kept: no documents, or the first alone is over budget. */
  lemma ContextEmptyIff(docs: seq<Document>, maxTokens: nat)
    ensures BuildContext(docs, maxTokens) == "" <==> KeptCount(docs, maxTokens) == 0
    ensures KeptCount(docs, maxTokens) == 0 <==> docs == [] || Cost(docs[0]) > 4 * maxTokens
  {
    var k := KeptCount(docs, maxTokens);
    if docs != [] {
      assert Costs(docs)[0] == Cost(docs[0]);
    }
    if k > 0 {
      var parts := Labelled(docs[..k]);
      assert parts[0] == Label(0, docs[0].pageContent);
      assert parts[0][0] == '\U{BB38}';
    }
  }

  /** A walk that stops before the end of `costs` is not affected by costs appended after them. */
  lemma {:induction false} KeptFromAppend(costs: seq<nat>, more: seq<nat>, used: nat, budget: nat)
    requires KeptFrom(costs, used, budget) < |costs|
    ensures KeptFrom(costs + more, used, budget) == KeptFrom(costs, used, budget)
  {
    var all := costs + more;
    assert all[0] == costs[0];
    if used + costs[0] <= budget {
      assert all[1..] == costs[1..] + more;
      KeptFromAppend(costs[1..], more, used + costs[0], budget);
    }
  }

  /**
   * Once a document has been dropped, the documents after it, whatever they
   * are, change neither how many are kept nor the context.
   */
  lemma ContextIgnoresLaterDocuments(docs: seq<Document>, more: seq<Document>, maxTokens: nat)
    requires KeptCount(docs, maxTokens) < |docs|
    ensures KeptCount(docs + more, maxTokens) == KeptCount(docs, maxTokens)
    ensures BuildContext(docs + more, maxTokens) == BuildContext(docs, maxTokens)
  {
    KeptCountIgnoresLater(docs, more, maxTokens);
    var k := KeptCount(docs, maxTokens);
    assert (docs + more)[..k] == docs[..k];
  }

  lemma KeptCountIgnoresLater(docs: seq<Document>, more: seq<Document>, maxTokens: nat)
    requires KeptCount(docs, maxTokens) < |docs|
    ensures KeptCount(docs + more, maxTokens) == KeptCount(docs, maxTokens)
  {
    assert Costs(docs + more) == Costs(docs) + Costs(more);
    KeptFromAppend(Costs(docs), Costs(more), 0, 4 * maxTokens);
  }

  /**
   * Three ten-word documents under a budget of 15 tokens: the first costs 7.5,
   * the second brings the total to exactly 15 and is kept, the third would
   * reach 22.5 and is dropped.
   */
  lemma ThreeTenWordDocuments(docs: seq<Document>)
    requires |docs| == 3
    requires forall i | 0 <= i < 3 :: WordCount(docs[i].pageContent) == 10
    ensures KeptCount(docs, 15) == 2
  {
    var costs := Costs(docs);
    assert costs == [30, 30, 30];
    assert costs[1..] == [30, 30] && costs[2..] == [30];
    assert KeptFrom([30], 60, 60) == 0;
    assert KeptFrom([30, 30], 30, 60) == 1;
  }

  /** A small document after one that is over budget is dropped too: a prefix is kept, not a best fit. */
  lemma SmallAfterLargeDropped(docs: seq<Document>)
    requires |docs| == 3
    requires WordCount(docs[0].pageContent) == 1
    requires WordCount(docs[1].pageContent) == 700
    requires WordCount(docs[2].pageContent) == 1
    ensures KeptCount(docs, ContextMaxTokens) == 1
  {
    var costs := Costs(docs);
    assert costs[0] == 3 && costs[1] == 2100;
    KeptFromStep(costs, 0, 4 * ContextMaxTokens);
    assert costs[1..][0] == 2100;
  }
}
