/**
 * Prompt construction: one of two templates, chosen by whether the user
 * asked a question, with the serialised snapshot embedded.
 *
 * `JSON.stringify(snapshot, null, 2)` is the parameter `serialize`: the
 * model claims nothing about its output except that the prompt embeds it
 * verbatim.
 */
module Prompt {
  import opened Wrappers
  import opened Aggregation

  // The pieces both templates share.
  const Advisor: string := "\n      You are a personal finance advisor. "
  const Gap: string := "\n\n      "
  const OutputJson: string := "Output JSON"

  // The question template, around the message and the serialised data.
  const QuestionLead: string := Advisor + Analyze
  // The first word of each template's own text is a literal of its own:
  // ModesNeverCoincide compares the first character after Advisor, and the
  // verifier reads characters only out of short literals.
  const Analyze: string := "Analyze" + " this user's data and answer this question:\n      \""
  const QuestionMid: string := "\"\n\n      User data:\n      "
  const QuestionTail: string := Gap + OutputJson + " with keys: summary, insights[], recommendations[].\n      "

  // The general-advice template, around the serialised data.
  const GeneralLead: string := Advisor + Provide + Gap
  const Provide: string := "Provide" + " a summary, insights, and recommendations\n      based on the following user data:"
  const GeneralTail: string := Gap + OutputJson + " only.\n      "

  /** `if (message)`: the message is present and, being a string, non-empty. */
  predicate HasQuestion(message: Option<string>)
  {
    message.Some? && message.value != ""
  }

  /** `needle` stands in `hay` starting at position `at`. */
  predicate Occurs(needle: string, hay: string, at: int)
  {
    0 <= at && at + |needle| <= |hay| && hay[at..at + |needle|] == needle
  }

  ghost predicate Contains(hay: string, needle: string)
  {
    exists at :: Occurs(needle, hay, at)
  }

  /**
   * The prompt of lines 33-55. With a question it quotes the message right
   * after the question lead and embeds the data after it; otherwise it
   * embeds the data right after the general lead. Either way it ends by
   * asking for JSON output.
   */
  function BuildPrompt(s: Snapshot, message: Option<string>, serialize: Snapshot -> string): (p: string)
    ensures HasQuestion(message) ==>
      && Occurs(QuestionLead, p, 0)
      && Occurs(message.value, p, |QuestionLead|)
      && Occurs(serialize(s), p, |QuestionLead| + |message.value| + |QuestionMid|)
      && Occurs(QuestionTail, p, |p| - |QuestionTail|)
    ensures !HasQuestion(message) ==>
      && Occurs(GeneralLead, p, 0)
      && Occurs(serialize(s), p, |GeneralLead|)
      && Occurs(GeneralTail, p, |p| - |GeneralTail|)
  {
    var data := serialize(s);
    if HasQuestion(message) then
      var p := QuestionLead + message.value + QuestionMid + data + QuestionTail;
      assert p[|QuestionLead|..|QuestionLead| + |message.value|] == message.value;
      assert p[|QuestionLead| + |message.value| + |QuestionMid|..|p| - |QuestionTail|] == data;
      p
    else
      var p := GeneralLead + data + GeneralTail;
      assert p[|GeneralLead|..|GeneralLead| + |data|] == data;
      p
  }

  /**
   * Both templates embed the serialised snapshot and ask for JSON output;
   * the question template also holds the message verbatim.
   */
  lemma PromptContents(s: Snapshot, message: Option<string>, serialize: Snapshot -> string)
    ensures Contains(BuildPrompt(s, message, serialize), serialize(s))
    ensures Contains(BuildPrompt(s, message, serialize), OutputJson)
    ensures HasQuestion(message) ==> Contains(BuildPrompt(s, message, serialize), message.value)
  {
    var p := BuildPrompt(s, message, serialize);
    var data := serialize(s);
    if HasQuestion(message) {
      assert Occurs(data, p, |QuestionLead| + |message.value| + |QuestionMid|);
      assert Occurs(message.value, p, |QuestionLead|);
      var at := |p| - |QuestionTail|;
      assert p[at..at + |QuestionTail|] == QuestionTail;
      assert p[at + |Gap|..at + |Gap| + |OutputJson|] == QuestionTail[|Gap|..|Gap| + |OutputJson|] == OutputJson;
      assert Occurs(OutputJson, p, at + |Gap|);
    } else {
      assert Occurs(data, p, |GeneralLead|);
      var at := |p| - |GeneralTail|;
      assert p[at..at + |GeneralTail|] == GeneralTail;
      assert p[at + |Gap|..at + |Gap| + |OutputJson|] == GeneralTail[|Gap|..|Gap| + |OutputJson|] == OutputJson;
      assert Occurs(OutputJson, p, at + |Gap|);
    }
  }

  /** Without a question the prompt is the general one, whatever `message` held. */
  lemma GeneralPromptIgnoresMessage(s: Snapshot, m1: Option<string>, m2: Option<string>, serialize: Snapshot -> string)
    requires !HasQuestion(m1) && !HasQuestion(m2)
    ensures BuildPrompt(s, m1, serialize) == BuildPrompt(s, m2, serialize) == BuildPrompt(s, None, serialize)
  {
  }

  /** Two questions that give the same prompt (on the same snapshot) are the same question. */
  lemma QuestionDeterminesPrompt(s: Snapshot, m1: string, m2: string, serialize: Snapshot -> string)
    requires m1 != "" && m2 != ""
    requires BuildPrompt(s, Some(m1), serialize) == BuildPrompt(s, Some(m2), serialize)
    ensures m1 == m2
  {
  }

  /** A question prompt is never a general prompt: the templates part right after Advisor. */
  lemma ModesNeverCoincide(s1: Snapshot, s2: Snapshot, m1: Option<string>, m2: Option<string>, serialize: Snapshot -> string)
    requires HasQuestion(m1) && !HasQuestion(m2)
    ensures BuildPrompt(s1, m1, serialize) != BuildPrompt(s2, m2, serialize)
  {
    var p1, p2 := BuildPrompt(s1, m1, serialize), BuildPrompt(s2, m2, serialize);
    var k := |Advisor|;
    assert Analyze[0] == 'A' && Provide[0] == 'P';
    assert QuestionLead[k] == Analyze[0] && GeneralLead[k] == Provide[0];
    assert p1[0..|QuestionLead|] == QuestionLead;
    assert p2[0..|GeneralLead|] == GeneralLead;
    assert p1[k] == 'A' && p2[k] == 'P';
  }
}
