/**
 The mute marks an AI alarm leaves for the rule alarms of the same device and
 channel: one expiring key for each level at or below the alarm's.
 */
module AiMute {
  import opened Wrappers
  import opened RiskLevels
  import Clock

  const AI_MUTE_TTL := 60 * Clock.SECOND

  datatype MuteKey = MuteKey(device: string, channel: nat, level: Risk)

  /** The keys that exist, with the time at which they expire. */
  type Keys = map<MuteKey, int>

  datatype Mark = Mark(device: string, channel: nat, level: Risk, at: int)

  function LevelsAtOrBelow(level: Risk): seq<Risk> {
    match level
    case Normal => [Normal]
    case Warning => [Normal, Warning]
    case Danger => [Normal, Warning, Danger]
  }

  /** The levels written in the source as text; any other text is refused. */
  function ReadLevel(text: string): Option<Risk> {
    if text == "normal" then Some(Normal)
    else if text == "warning" then Some(Warning)
    else if text == "danger" then Some(Danger)
    else None
  }

  /** A level is read iff it is one of the three risk texts. */
  lemma ReadLevelIff(text: string, level: Risk)
    ensures ReadLevel(text) == Some(level) <==> text == RiskText(level)
  {
    if ReadLevel(text).Some? && text == RiskText(level) {
      RiskTextInjective(ReadLevel(text).value, level);
    }
  }

  /** Sets the first `n` of the levels. */
  function SetLevels(keys: Keys, m: Mark, ttl: int, n: nat): Keys
    requires n <= |LevelsAtOrBelow(m.level)|
  {
    if n == 0 then keys
    else SetLevels(keys, m, ttl, n - 1)[MuteKey(m.device, m.channel, LevelsAtOrBelow(m.level)[n - 1]) := m.at + ttl]
  }

  /** The highest level that is marked when only this many keys are written. */
  function Written(level: Risk, keys: nat): (r: Option<Risk>)
    ensures r.Some? <==> keys > 0
    ensures r.Some? ==> Rank(r.value) == if keys <= Rank(level) then keys - 1 else Rank(level)
  {
    var all := LevelsAtOrBelow(level);
    if keys == 0 then None else Some(all[if keys < |all| then keys - 1 else |all| - 1])
  }

  function MarkRecent(keys: Keys, m: Mark, ttl: int): Keys {
    SetLevels(keys, m, ttl, |LevelsAtOrBelow(m.level)|)
  }

  predicate IsMuteActive(keys: Keys, device: string, channel: nat, level: Risk, now: int) {
    var key := MuteKey(device, channel, level);
    key in keys && now < keys[key]
  }

  function MarkAll(marks: seq<Mark>, ttl: int): Keys {
    if marks == [] then map[] else MarkRecent(MarkAll(marks[..|marks| - 1], ttl), marks[|marks| - 1], ttl)
  }

  ghost predicate InTimeOrder(marks: seq<Mark>) {
    forall j, k | 0 <= j < k < |marks| :: marks[j].at <= marks[k].at
  }

  /** A mark covers a rule alarm of its device and channel at its level or below. */
  predicate Covers(m: Mark, device: string, channel: nat, level: Risk) {
    m.device == device && m.channel == channel && Rank(level) <= Rank(m.level)
  }

  lemma MarkRecentSets(keys: Keys, m: Mark, ttl: int, device: string, channel: nat, level: Risk)
    ensures var key := MuteKey(device, channel, level); var keys' := MarkRecent(keys, m, ttl);
            if Covers(m, device, channel, level) then key in keys' && keys'[key] == m.at + ttl
            else (key in keys' <==> key in keys) && (key in keys ==> keys'[key] == keys[key])
  {
    var all := LevelsAtOrBelow(m.level);
    assert SetLevels(keys, m, ttl, 0) == keys;
    var k1 := SetLevels(keys, m, ttl, 1);
    assert k1 == keys[MuteKey(m.device, m.channel, Normal) := m.at + ttl];
    if |all| > 1 {
      var k2 := SetLevels(keys, m, ttl, 2);
      assert k2 == k1[MuteKey(m.device, m.channel, Warning) := m.at + ttl];
      if |all| > 2 {
        assert SetLevels(keys, m, ttl, 3) == k2[MuteKey(m.device, m.channel, Danger) := m.at + ttl];
      }
    }
  }

  lemma RecentlyMarkedStep(marks: seq<Mark>, ttl: int, device: string, channel: nat, level: Risk, now: int)
    requires marks != [] && InTimeOrder(marks)
    ensures var init, last := marks[..|marks| - 1], marks[|marks| - 1];
            (exists m <- marks :: Covers(m, device, channel, level) && now < m.at + ttl) <==>
            if Covers(last, device, channel, level) then now < last.at + ttl
            else exists m <- init :: Covers(m, device, channel, level) && now < m.at + ttl
  {
    var init, last := marks[..|marks| - 1], marks[|marks| - 1];
    assert last in marks && forall m <- init :: m in marks;
    forall m <- marks ensures m.at <= last.at && (m == last || m in init) {
      var k :| 0 <= k < |marks| && marks[k] == m;
      if k < |marks| - 1 { assert m == init[k]; }
    }
  }

  /** The expiring keys say exactly what the history of marks says. */
  lemma {:induction false} MutedIffRecentlyMarked(marks: seq<Mark>, ttl: int, device: string, channel: nat,
                                                  level: Risk, now: int)
    requires InTimeOrder(marks)
    ensures IsMuteActive(MarkAll(marks, ttl), device, channel, level, now) <==>
            exists m <- marks :: Covers(m, device, channel, level) && now < m.at + ttl
  {
    if marks != [] {
      var init := marks[..|marks| - 1];
      MarkRecentSets(MarkAll(init, ttl), marks[|marks| - 1], ttl, device, channel, level);
      RecentlyMarkedStep(marks, ttl, device, channel, level, now);
      MutedIffRecentlyMarked(init, ttl, device, channel, level, now);
    }
  }

  /** Muting is downward closed: a rule that is muted stays muted at every lower level. */
  lemma MutedBelow(marks: seq<Mark>, ttl: int, device: string, channel: nat, level: Risk, lower: Risk, now: int)
    requires InTimeOrder(marks) && Rank(lower) <= Rank(level)
    requires IsMuteActive(MarkAll(marks, ttl), device, channel, level, now)
    ensures IsMuteActive(MarkAll(marks, ttl), device, channel, lower, now)
  {
    MutedIffRecentlyMarked(marks, ttl, device, channel, level, now);
    MutedIffRecentlyMarked(marks, ttl, device, channel, lower, now);
    var m :| m in marks && Covers(m, device, channel, level) && now < m.at + ttl;
    assert Covers(m, device, channel, lower);
  }

  /** A mark that is cut short equals a whole mark of a lower level. */
  lemma PartialMarkIsMilder(keys: Keys, m: Mark, ttl: int, n: nat)
    requires n <= |LevelsAtOrBelow(m.level)|
    ensures SetLevels(keys, m, ttl, n) ==
            if n == 0 then keys else MarkRecent(keys, m.(level := LevelsAtOrBelow(m.level)[n - 1]), ttl)
  {
    if n > 0 { SameKeysSet(keys, m, m.(level := LevelsAtOrBelow(m.level)[n - 1]), ttl, n); }
  }

  lemma {:induction false} SameKeysSet(keys: Keys, m: Mark, m': Mark, ttl: int, n: nat)
    requires n <= |LevelsAtOrBelow(m'.level)| <= |LevelsAtOrBelow(m.level)| && m'.(level := m.level) == m
    ensures SetLevels(keys, m, ttl, n) == SetLevels(keys, m', ttl, n)
  {
    if n > 0 { SameKeysSet(keys, m, m', ttl, n - 1); }
  }

  class MuteStore {
    var keys: Keys

    constructor ()
      ensures keys == map[]
    {
      keys := map[];
    }

    /**
     Marks an AI alarm, as far as Redis lets it: `writes` keys at most. Without device or channel, or at an unknown
     level, nothing is marked.
     */
    method MarkAiRecent(device: Option<string>, channel: Option<nat>, level: string, now: int, ttl: int, writes: nat)
      modifies this
      ensures keys == if device.Some? && channel.Some? && ReadLevel(level).Some? && writes > 0 then
                        MarkRecent(old(keys), Mark(device.value, channel.value,
                                                   Written(ReadLevel(level).value, writes).value, now), ttl)
                      else old(keys)
    {
      if device.None? || channel.None? || ReadLevel(level).None? {
        return;
      }
      var m := Mark(device.value, channel.value, ReadLevel(level).value, now);
      var levels := LevelsAtOrBelow(m.level);
      var i := 0;
      while i < |levels| && i < writes
        invariant 0 <= i <= |levels| && i <= writes
        invariant keys == SetLevels(old(keys), m, ttl, i)
      {
        keys := keys[MuteKey(m.device, m.channel, levels[i]) := now + ttl];
        i := i + 1;
      }
      PartialMarkIsMilder(old(keys), m, ttl, i);
    }

    /** Fails open: when Redis cannot be asked, nothing is muted. */
    method IsAiMuteActive(device: string, channel: nat, level: Risk, now: int, redisFails: bool) returns (muted: bool)
      ensures muted <==> !redisFails && IsMuteActive(keys, device, channel, level, now)
    {
      if redisFails {
        return false;
      }
      var key := MuteKey(device, channel, level);
      muted := key in keys && now < keys[key];
    }
  }
}
