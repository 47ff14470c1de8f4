/** Who is talking: the sender's nick taken from an IRC source, the bot's own
    nickname derived from its boss's, and the retry nickname used when the
    server reports a collision (irc-secretary.py lines 26, 32 and 50). */
module Identity {
  import opened Text

  /** The nick part of a source `nick!user@host`: everything before the first
      `!` (Python's `source.split('!')[0]`). */
  function Sender(source: string): (who: string)
    ensures who <= source
    ensures '!' !in who
    ensures |who| < |source| ==> source[|who|] == '!'
  {
    source[..IndexOf(source, '!')]
  }

  /** The nick is recovered from a full source mask. */
  lemma SenderOfMask(nick: string, rest: string)
    requires '!' !in nick
    ensures Sender(nick + "!" + rest) == nick
  {
    IndexOfAfter(nick, '!', rest);
    assert (nick + "!" + rest)[..|nick|] == nick;
  }

  /** Python's `s.rstrip('_')`. */
  function RStripUnderscores(s: string): (r: string)
    ensures r <= s
    ensures r == [] || r[|r| - 1] != '_'
    ensures forall i :: |r| <= i < |s| ==> s[i] == '_'
  {
    if s != [] && s[|s| - 1] == '_' then RStripUnderscores(s[..|s| - 1]) else s
  }

  const BotSuffix := "_sec"

  /** The bot's nickname: the boss's nick without trailing underscores, plus `_sec`. */
  function BotNickname(boss: string): (nick: string)
    ensures |nick| >= |BotSuffix| && nick[|nick| - |BotSuffix|..] == BotSuffix
    ensures nick[..|nick| - |BotSuffix|] <= boss
  {
    var stem := RStripUnderscores(boss);
    assert (stem + BotSuffix)[..|stem|] == stem;
    stem + BotSuffix
  }

  /** The nickname tried after the server reports the current one in use. */
  function NextNick(nick: string): (next: string)
    ensures |next| == |nick| + 1 && next[..|nick|] == nick && next[|nick|] == '_'
  {
    nick + "_"
  }

  /** The nickname after `k` successive collisions. */
  function NickAfterCollisions(nick: string, k: nat): string
  {
    if k == 0 then nick else NextNick(NickAfterCollisions(nick, k - 1))
  }

  /** Each collision appends exactly one underscore. */
  lemma {:induction false} NickAfterCollisionsShape(nick: string, k: nat)
    ensures var n := NickAfterCollisions(nick, k);
      |n| == |nick| + k && n[..|nick|] == nick &&
      forall i :: |nick| <= i < |n| ==> n[i] == '_'
  {
    if k > 0 {
      NickAfterCollisionsShape(nick, k - 1);
    }
  }

  /** Retrying never offers a nickname that was already refused. */
  lemma CollisionNicksDistinct(nick: string, j: nat, k: nat)
    requires j != k
    ensures NickAfterCollisions(nick, j) != NickAfterCollisions(nick, k)
  {
    NickAfterCollisionsShape(nick, j);
    NickAfterCollisionsShape(nick, k);
  }

  /** Trailing underscores on the boss's nick do not change the bot's nickname. */
  lemma {:induction false} BotNicknameIgnoresUnderscores(boss: string, k: nat)
    ensures BotNickname(NickAfterCollisions(boss, k)) == BotNickname(boss)
  {
    if k > 0 {
      var prev := NickAfterCollisions(boss, k - 1);
      BotNicknameIgnoresUnderscores(boss, k - 1);
      assert (prev + "_")[..|prev|] == prev;
    }
  }

  /** Whatever the collisions, the bot never uses its boss's nickname. */
  lemma BotNeverTakesBossNick(boss: string, k: nat)
    ensures NickAfterCollisions(BotNickname(boss), k) != boss
  {
    var r := RStripUnderscores(boss);
    var nick := BotNickname(boss);
    NickAfterCollisionsShape(nick, k);
    var n := NickAfterCollisions(nick, k);
    assert n[|r| + 1] == nick[|r| + 1] == 's';
  }
}
