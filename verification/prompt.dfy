/** `build_prompt`: the retrieved documents become context blocks, in ranking order, inside a
    fixed instruction template, and the whole prompt is stripped. */
module Prompt {
  import opened Seqs
  import opened Text
  import opened Fusion

  /** The stripped prompt template up to its `{question}` field. Its first line is written as
      two literals, "You're " and the rest, so that `HeadStart` can read off the first character
      from a short literal. */
  const HEAD: string :=
    "You're " + "an assistant to an open source software engineering project on github. "
    + "Answer the QUESTION based on\n"
    + "    the CONTEXT from our contributor FAQ database.\n"
    + "    Use only the facts and relevant hyperlinks, if any, from the CONTEXT when answering the QUESTION.\n"
    + "\n"
    + "    QUESTION: "

  /** The template text between the `{question}` and `{context}` fields. */
  const MIDDLE: string := MIDDLE_STRIPPED + MIDDLE_TAIL

  /** `MIDDLE` without its trailing white space: where the prompt ends when the context is blank. */
  const MIDDLE_STRIPPED: string := "\n\n    CONTEXT:"

  /** The white space that ends `MIDDLE`. */
  const MIDDLE_TAIL: string := "\n    "

  /** The stripped entry template up to its `{page_content}` field. */
  const ENTRY_PREFIX: string := "page_content: "

  /** What separates one context block from the next. */
  const BLOCK_SEPARATOR: string := "\n\n"

  /** `prompt_template.format(question=question, context=context)`. */
  function FillTemplate(question: string, context: string): string
  {
    HEAD + question + MIDDLE + context
  }

  /** `entry_template.format(**doc) + "\n\n"`: one context block. */
  function Block(doc: Document): string
  {
    ENTRY_PREFIX + doc.pageContent + BLOCK_SEPARATOR
  }

  /** The context the loop accumulates: the documents' blocks, concatenated in order. */
  function Context(docs: seq<Document>): string
  {
    if |docs| == 0 then "" else Context(docs[..|docs| - 1]) + Block(docs[|docs| - 1])
  }

  /** The prompt `build_prompt(question, docs)` returns. */
  function PromptText(question: string, docs: seq<Document>): string
  {
    Strip(FillTemplate(question, Context(docs)))
  }

  /** `build_prompt`: accumulates the context block by block, fills the template, strips it. */
  method BuildPrompt(query: string, searchResults: seq<Document>) returns (prompt: string)
    ensures prompt == PromptText(query, searchResults)
  {
    var context := "";
    for i := 0 to |searchResults|
      invariant context == Context(searchResults[..i])
    {
      PrefixOfPrefix(searchResults, i, i + 1);
      context := context + ENTRY_PREFIX + searchResults[i].pageContent + "\n\n";
    }
    WholePrefix(searchResults);
    prompt := Strip(FillTemplate(query, context));
  }

  /** The context of a concatenation is the concatenation of the contexts. */
  lemma {:induction false} ContextAppend(a: seq<Document>, b: seq<Document>)
    ensures Context(a + b) == Context(a) + Context(b)
    decreases |b|
  {
    if |b| == 0 {
      ConcatEmpty(a, b);
    } else {
      var b0 := b[..|b| - 1];
      ConcatDropLast(a, b);
      assert (a + b)[|a + b| - 1] == b[|b| - 1];
      ContextAppend(a, b0);
      ConcatAssoc(Context(a), Context(b0), Block(b[|b| - 1]));
    }
  }

  /** Document `i`'s block sits between the blocks of the documents before it and after it:
      the context keeps the ranking order. */
  lemma {:induction false} ContextBlockAt(docs: seq<Document>, i: nat)
    requires i < |docs|
    ensures Context(docs) == Context(docs[..i]) + Block(docs[i]) + Context(docs[i + 1..])
    decreases |docs|
  {
    var n := |docs|;
    var init := docs[..n - 1];
    assert Context(docs) == Context(init) + Block(docs[n - 1]);
    if i == n - 1 {
      assert docs[i + 1..] == [];
    } else {
      ContextBlockAt(init, i);
      PrefixOfPrefix(docs, i, n - 1);
      var after := docs[i + 1..];
      SuffixDropLast(docs, i + 1);
      assert Context(after) == Context(init[i + 1..]) + Block(docs[n - 1]);
    }
  }

  lemma MiddleStripped()
    ensures RStrip(MIDDLE) == MIDDLE_STRIPPED
  {
    assert AllSpace(MIDDLE_TAIL);
    RStripAllSpace(MIDDLE_TAIL);
    RStripConcat(MIDDLE_STRIPPED, MIDDLE_TAIL);
  }

  /** The template head starts with a non-space character, so stripping never reaches it. */
  lemma HeadStart()
    ensures |HEAD| > 0 && HEAD[0] == 'Y' && !IsSpace(HEAD[0])
  {
    var first := "You're ";
    assert first[0] == 'Y';
    assert HEAD == first + HEAD[|first|..];
  }

  /** The prompt is the template head, the question, and then either the context with its
      trailing white space removed, or, when the context is blank (no documents), the template
      ending at "CONTEXT:". */
  lemma PromptShape(question: string, docs: seq<Document>)
    ensures RStrip(Context(docs)) == [] ==> PromptText(question, docs) == HEAD + question + MIDDLE_STRIPPED
    ensures RStrip(Context(docs)) != [] ==>
      PromptText(question, docs) == HEAD + question + MIDDLE + RStrip(Context(docs))
  {
    var ctx := Context(docs);
    var hq := HEAD + question;
    HeadStart();
    RStripConcat(hq + MIDDLE, ctx);
    if RStrip(ctx) == [] {
      RStripConcat(hq, MIDDLE);
      MiddleStripped();
      ConcatAssoc(HEAD, question, MIDDLE_STRIPPED);
      LStripNonSpaceHead(HEAD, question + MIDDLE_STRIPPED);
    } else {
      var tail := question + MIDDLE + RStrip(ctx);
      ConcatAssoc(HEAD, question, MIDDLE);
      ConcatAssoc(HEAD, question + MIDDLE, RStrip(ctx));
      LStripNonSpaceHead(HEAD, tail);
    }
  }

  /** No documents still give a well-formed prompt: the template with the question and an
      empty context. */
  lemma EmptyResultsPrompt(question: string)
    ensures Context([]) == ""
    ensures PromptText(question, []) == HEAD + question + MIDDLE_STRIPPED
  {
    PromptShape(question, []);
  }

  /** Whatever the documents, the prompt begins with the template head and the question, so
      the question occurs in it, right after the head. */
  lemma PromptContainsQuestion(question: string, docs: seq<Document>)
    ensures StartsWith(PromptText(question, docs), HEAD + question)
    ensures OccursAt(PromptText(question, docs), question, |HEAD|)
    ensures Contains(PromptText(question, docs), question)
  {
    PromptShape(question, docs);
    var ctx := RStrip(Context(docs));
    if ctx == [] {
      ConcatParts(HEAD, question, MIDDLE_STRIPPED);
    } else {
      ConcatParts4(HEAD, question, MIDDLE, ctx);
    }
    ContainsIff(PromptText(question, docs), question);
  }

  lemma ConcatParts4(h: string, q: string, m: string, c: string)
    ensures StartsWith(h + q + m + c, h + q)
    ensures OccursAt(h + q + m + c, q, |h|)
  {
    assert h + q + m + c == h + q + (m + c);
    ConcatParts(h, q, m + c);
  }

  lemma ConcatParts(h: string, q: string, t: string)
    ensures StartsWith(h + q + t, h + q)
    ensures OccursAt(h + q + t, q, |h|)
  {
    assert (h + q + t)[..|h + q|] == h + q;
  }

  /** When the last document's content ends in a non-space character, stripping only removes
      the final block separator, so every document's content reaches the prompt intact. */
  lemma StrippedContextKeepsContent(docs: seq<Document>)
    requires |docs| > 0
    requires |docs[|docs| - 1].pageContent| > 0
    requires !IsSpace(docs[|docs| - 1].pageContent[|docs[|docs| - 1].pageContent| - 1])
    ensures RStrip(Context(docs)) == Context(docs[..|docs| - 1]) + ENTRY_PREFIX + docs[|docs| - 1].pageContent
  {
    var last := docs[|docs| - 1];
    var body := Context(docs[..|docs| - 1]) + ENTRY_PREFIX + last.pageContent;
    assert Context(docs) == body + BLOCK_SEPARATOR;
    RStripConcat(body, BLOCK_SEPARATOR);
    assert BLOCK_SEPARATOR[..1][..0] == [];
    assert RStrip(BLOCK_SEPARATOR) == [];
    assert body[|body| - 1] == last.pageContent[|last.pageContent| - 1];
  }
}
