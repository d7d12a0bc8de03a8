/**
 * The AI text service (`generate_gemini_response`). It never raises: when the model was not
 * configured, or when the call to it fails, it answers one of two fixed error texts instead.
 */
module Gemini {
  // The two texts are spelled in pieces so that the proof below can check them a piece at a time.
  const NotInitializedReply: string :=
    "Error: " + "Gemini " + "model not " + "initialized. " + "Please " + "ensure " + "configure_"
    + "gemini_model " + "runs on startup."
  const CallFailedReply: string := "Error: " + "Could not " + "generate content."

  /** The reply is one of the service's own error texts. */
  predicate IsErrorReply(reply: string)
  {
    reply == NotInitializedReply || reply == CallFailedReply
  }

  /** No character of s is a brace. */
  predicate BraceFree(s: string)
  {
    forall i :: 0 <= i < |s| ==> s[i] != '{' && s[i] != '}'
  }

  lemma {:induction false} BraceFreeAppend(a: string, b: string)
    requires BraceFree(a) && BraceFree(b)
    ensures BraceFree(a + b)
  {
    forall i | 0 <= i < |a + b|
      ensures (a + b)[i] != '{' && (a + b)[i] != '}'
    {
      if i >= |a| {
        assert (a + b)[i] == b[i - |a|];
      }
    }
  }

  /** Neither error text contains a brace. */
  lemma {:induction false} ErrorReplyHasNoBrace(reply: string)
    requires IsErrorReply(reply)
    ensures '{' !in reply && '}' !in reply
  {
    var w1, w2, w3, w4, w5 := "Error: ", "Gemini ", "model not ", "initialized. ", "Please ";
    var w6, w7, w8, w9 := "ensure ", "configure_", "gemini_model ", "runs on startup.";
    assert BraceFree(w1) && BraceFree(w2) && BraceFree(w3) && BraceFree(w4) && BraceFree(w5);
    assert BraceFree(w6) && BraceFree(w7) && BraceFree(w8) && BraceFree(w9);
    BraceFreeAppend(w1, w2);
    BraceFreeAppend(w1 + w2, w3);
    BraceFreeAppend(w1 + w2 + w3, w4);
    BraceFreeAppend(w1 + w2 + w3 + w4, w5);
    BraceFreeAppend(w1 + w2 + w3 + w4 + w5, w6);
    BraceFreeAppend(w1 + w2 + w3 + w4 + w5 + w6, w7);
    BraceFreeAppend(w1 + w2 + w3 + w4 + w5 + w6 + w7, w8);
    BraceFreeAppend(w1 + w2 + w3 + w4 + w5 + w6 + w7 + w8, w9);
    var v1, v2 := "Could not ", "generate content.";
    assert BraceFree(v1) && BraceFree(v2);
    BraceFreeAppend(w1, v1);
    BraceFreeAppend(w1 + v1, v2);
    assert BraceFree(reply);
  }
}
