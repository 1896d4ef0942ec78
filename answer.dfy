/** The answer service boundary: the prompt sent to the language model and
    the text the application shows for the model's reply. */
module Answer {

  const Preamble: string := "Answer the following question based on the member messages:\n\n"
  const QuestionTag: string := "\n\nQuestion: "
  const ErrorPrefix: string := "Error: "

  /** The prompt: the fixed preamble, the context, the question tag, the question. */
  function Prompt(question: string, context: string): (p: string)
    ensures |p| == |Preamble| + |context| + |QuestionTag| + |question|
    ensures p[..|Preamble|] == Preamble
    ensures p[|Preamble| .. |Preamble| + |context|] == context
    ensures p[|Preamble| + |context| .. |p| - |question|] == QuestionTag
    ensures p[|p| - |question|..] == question
  {
    Preamble + context + QuestionTag + question
  }

  /** Knowing the question's length, the prompt determines both the context
      and the question. */
  lemma PromptInjective(q1: string, c1: string, q2: string, c2: string)
    requires |q1| == |q2| && Prompt(q1, c1) == Prompt(q2, c2)
    ensures q1 == q2 && c1 == c2
  {
    var p := Prompt(q1, c1);
    assert q1 == p[|p| - |q1|..] == q2;
    assert |c1| == |c2|;
    assert c1 == p[|Preamble| .. |Preamble| + |c1|] == c2;
  }

  /** Without the question's length the template is ambiguous: a context
      holding the question tag lets two different inputs give one prompt. */
  lemma PromptCollision()
    ensures Prompt("z", "x\n\nQuestion: y") == Prompt("y\n\nQuestion: z", "x")
  {
  }

  /** What the model call gives back: the generated text, or the details of
      the exception it raised. */
  datatype ModelReply = Generated(text: string) | Failed(details: string)

  /** The text `ask_gemini` returns: the model's text, or `Error: ` and the details. */
  function AnswerText(reply: ModelReply): (r: string)
    ensures reply.Generated? ==> r == reply.text
    ensures reply.Failed? ==> |r| == |ErrorPrefix| + |reply.details|
                              && r[..|ErrorPrefix|] == ErrorPrefix
                              && r[|ErrorPrefix|..] == reply.details
  {
    match reply
    case Generated(text) => text
    case Failed(details) => ErrorPrefix + details
  }
}
