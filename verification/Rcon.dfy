/** How the outcome of an RCON stop is read. */
module Rcon {
  import opened Hosts
  import opened Text

  predicate Contains(s: string, part: string) {
    part <= s || (s != [] && Contains(s[1..], part))
  }

  /** The stop counts as issued when the save went through and the stop either was answered
      or failed with a message that speaks of the connection or of a timeout. */
  predicate StopIssued(save: Reply, stop: Reply) {
    save.Answered? &&
    (stop.Answered? || Contains(Lower(stop.message), "connection") || Contains(Lower(stop.message), "timed out"))
  }

  /** `word` stands somewhere in the message, in whatever case. */
  ghost predicate Mentions(message: string, word: string) {
    exists i: nat :: StandsAt(message, word, i)
  }

  predicate StandsAt(message: string, word: string, i: nat) {
    i + |word| <= |message| && SameText(message[i..i + |word|], word)
  }

  ghost predicate WentOut(save: Reply, stop: Reply) {
    save.Answered? && (stop.Answered? || Mentions(stop.message, "connection") || Mentions(stop.message, "timed out"))
  }

  /** A stop was issued exactly when the save was answered and the stop either was answered too
      or failed with a message that mentions a connection, or that something timed out. */
  lemma StopIssuedIff(save: Reply, stop: Reply)
    ensures StopIssued(save, stop) <==> WentOut(save, stop)
  {
    if stop.Error? {
      assert Lower("connection") == "connection" && Lower("timed out") == "timed out";
      ContainsIff(stop.message, "connection");
      ContainsIff(stop.message, "timed out");
    }
  }

  lemma {:induction false} ContainsIff(message: string, word: string)
    requires Lower(word) == word && word != []
    ensures Contains(Lower(message), word) <==> Mentions(message, word)
    decreases |message|
  {
    PrefixIff(message, word);
    if message != [] {
      assert Lower(message)[1..] == Lower(message[1..]);
      hide Lower, SameText;
      ContainsIff(message[1..], word);
      StandsLater(message, word);
    }
  }

  lemma PrefixIff(message: string, word: string)
    requires Lower(word) == word
    ensures word <= Lower(message) <==> StandsAt(message, word, 0)
  {
    if |word| <= |message| {
      SameTextIff(message[..|word|], word);
      assert Lower(message)[..|word|] == Lower(message[..|word|]);
    }
  }

  lemma StandsLater(message: string, word: string)
    requires message != []
    ensures Mentions(message, word) <==> StandsAt(message, word, 0) || Mentions(message[1..], word)
  {
    forall i: nat ensures StandsAt(message[1..], word, i) <==> StandsAt(message, word, i + 1) {
      if i + 1 + |word| <= |message| {
        assert message[1..][i..i + |word|] == message[i + 1..i + 1 + |word|];
      }
    }
    if Mentions(message, word) {
      var i: nat :| StandsAt(message, word, i);
      assert i > 0 ==> StandsAt(message[1..], word, i - 1);
    }
    if Mentions(message[1..], word) {
      var i: nat :| StandsAt(message[1..], word, i);
      assert StandsAt(message, word, i + 1);
    }
  }
}
