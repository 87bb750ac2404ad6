/** The feedback file of save_feedback_to_file (app.py:99-102) and its submit button (app.py:199-205). */
module Feedback {
  import opened Wrappers
  import opened Export

  /** The block a submission appends: the same shape as a battlecard labelled "Feedback". */
  function FeedbackBlock(text: string): string
  {
    Block("Feedback", text)
  }

  /** The file opened in append mode; `contents` is what it holds. */
  class FeedbackFile {
    var contents: string

    constructor (contents: string)
      ensures this.contents == contents
    {
      this.contents := contents;
    }

    method Write(s: string)
      modifies this
      ensures contents == old(contents) + s
    {
      contents := contents + s;
    }

    /** save_feedback_to_file: a header line, then the text and a blank line. */
    method SaveFeedback(feedback: string)
      modifies this
      ensures contents == old(contents) + FeedbackBlock(feedback)
    {
      Write("--- Feedback ---\n");
      Write(feedback + "\n\n");
    }

    /** The submit button: empty feedback is refused and writes nothing. */
    method Submit(feedback: string) returns (accepted: bool)
      modifies this
      ensures accepted <==> feedback != ""
      ensures contents == if accepted then old(contents) + FeedbackBlock(feedback) else old(contents)
    {
      accepted := feedback != "";
      if accepted {
        SaveFeedback(feedback);
      }
    }
  }

  /** After a submission the old contents are untouched and the new tail reads back as the feedback text. */
  lemma FeedbackReadBack(before: string, text: string)
    ensures var after := before + FeedbackBlock(text);
      after[..|before|] == before && ParseBlock(after[|before|..]) == Some(("Feedback", text))
  {
    var after := before + FeedbackBlock(text);
    assert after[|before|..] == FeedbackBlock(text);
    ParseBlockInverse("Feedback", text);
  }
}
