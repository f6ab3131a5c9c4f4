/** The crisis-language gate of middleware/safetyCheck.js: a lower-cased
    substring test against a fixed phrase list. */
module Safety {
  import opened Text

  const DangerWords: seq<string> := [
    "suicide", "kill myself", "end my life", "die", "hurt myself",
    "self-harm", "want to die", "better off dead", "no point living"]

  /** `safetyCheck(message)`. */
  function SafetyCheck(message: string): bool {
    ContainsAny(Lower(message), DangerWords)
  }

  /** Every listed phrase is already lower-case. */
  lemma DangerWordsLowerCase()
    ensures forall i :: 0 <= i < |DangerWords| ==> IsLowerCase(DangerWords[i])
  {
  }

  /** The gate fires exactly when some listed phrase occurs in the
      lower-cased message. */
  lemma SafetyCheckIff(message: string)
    ensures SafetyCheck(message)
            <==> exists i :: 0 <= i < |DangerWords| && Contains(Lower(message), DangerWords[i])
  {
  }

  /** Case does not matter: messages that lower-case to the same text get
      the same answer, in particular a message and its lower-cased form. */
  lemma SafetyCheckIgnoresCase(a: string, b: string)
    requires Lower(a) == Lower(b)
    ensures SafetyCheck(a) == SafetyCheck(b)
    ensures SafetyCheck(Lower(a)) == SafetyCheck(a)
  {
    LowerIdempotent(a);
  }

  /** Monotone: text that contains a triggering message also triggers. */
  lemma SafetyCheckMonotone(message: string, text: string)
    requires SafetyCheck(message) && Contains(text, message)
    ensures SafetyCheck(text)
  {
    var i :| 0 <= i < |DangerWords| && Contains(Lower(message), DangerWords[i]);
    LowerContains(text, message);
    ContainsTransitive(Lower(text), Lower(message), DangerWords[i]);
  }

  /** The empty message never triggers: no listed phrase is empty. */
  lemma EmptyNeverTriggers()
    ensures !SafetyCheck("")
  {
    forall i | 0 <= i < |DangerWords| ensures !Contains("", DangerWords[i]) {
      NotContainsLonger("", DangerWords[i]);
    }
  }

  /** The list with "want to die" taken out. */
  const ReducedDangerWords: seq<string> := DangerWords[..6] + DangerWords[7..]

  /** The bare "die" subsumes "want to die": dropping the longer phrase
      changes no answer. */
  lemma DieSubsumesWantToDie(message: string)
    ensures ContainsAny(Lower(message), ReducedDangerWords) == SafetyCheck(message)
  {
    var t := Lower(message);
    assert DangerWords[3] == "die" && DangerWords[6] == "want to die";
    assert ReducedDangerWords[3] == "die";
    if Contains(t, DangerWords[6]) {
      ContainsInfix("want to ", "die", "");
      assert "want to " + "die" + "" == "want to die";
      ContainsTransitive(t, DangerWords[6], "die");
    }
    forall i | 0 <= i < |DangerWords| && i != 6
      ensures exists j :: 0 <= j < |ReducedDangerWords| && ReducedDangerWords[j] == DangerWords[i]
    {
      var j := if i < 6 then i else i - 1;
      assert ReducedDangerWords[j] == DangerWords[i];
    }
  }

  /** Substring matching makes ordinary words trigger: "I studied"
      contains "die". */
  lemma StudiedTriggers()
    ensures SafetyCheck("I studied")
  {
    var t := Lower("I studied");
    assert t[5] == LowerChar('d') == 'd';
    assert t[6] == LowerChar('i') == 'i';
    assert t[7] == LowerChar('e') == 'e';
    assert t[5..8] == "die";
    ContainsAt(t, "die", 5);
    assert DangerWords[3] == "die";
  }

  /** So does "diet". */
  lemma DietTriggers()
    ensures SafetyCheck("diet")
  {
    var t := Lower("diet");
    assert t[0..3] == "die";
    ContainsAt(t, "die", 0);
    assert DangerWords[3] == "die";
  }
}
