/**
 The deduplication key of an alarm payload: colon-separated text, built so that two
 payloads get the same key exactly when they announce the same thing.
 */
module AlarmPayload {
  import opened Wrappers

  datatype Meta = Meta(device: Option<string>, channel: Option<int>)

  /** The payload fields the key depends on; None is an absent key. */
  datatype Payload = Payload(eventId: Option<int>, risk: Option<string>, resolvedAt: Option<string>,
                             alarmType: Option<string>, sourceLabel: Option<string>, source: Option<string>,
                             meta: Option<Meta>)

  function GetOr(o: Option<string>, default: string): string {
    if o.Some? then o.value else default
  }

  /** Python's truth value of an optional string. */
  predicate Filled(o: Option<string>) {
    o.Some? && o.value != ""
  }

  // ---------------------------------------------------------------------------
  // Text
  // ---------------------------------------------------------------------------

  function Digit(d: nat): char
    requires d < 10
  {
    ('0' as int + d) as char
  }

  function Digits(n: nat): (s: string)
    ensures ':' !in s && '-' !in s && s != ""
  {
    if n < 10 then [Digit(n)] else Digits(n / 10) + [Digit(n % 10)]
  }

  function IntText(n: int): (s: string)
    ensures ':' !in s && s != "" && (s[0] == '-' <==> n < 0)
  {
    if n < 0 then "-" + Digits(-n) else
      var s := Digits(n);
      assert s[0] in s;
      s
  }

  /** The number a string of digits stands for. */
  function Value(s: string): int {
    if s == "" then 0 else 10 * Value(s[..|s| - 1]) + (s[|s| - 1] as int - '0' as int)
  }

  lemma {:induction false} DigitsReadBack(n: nat)
    ensures Value(Digits(n)) == n
  {
    if n >= 10 {
      DigitsReadBack(n / 10);
      assert Digits(n)[..|Digits(n)| - 1] == Digits(n / 10);
    } else {
      assert [Digit(n)][..0] == "";
    }
  }

  lemma IntTextInjective(m: int, n: int)
    requires IntText(m) == IntText(n)
    ensures m == n
  {
    if m < 0 && n < 0 {
      assert IntText(m)[1..] == Digits(-m) && IntText(n)[1..] == Digits(-n);
      DigitsReadBack(-m);
      DigitsReadBack(-n);
    } else if m >= 0 && n >= 0 {
      DigitsReadBack(m);
      DigitsReadBack(n);
    }
  }

  /** The parts with colons in between. */
  function Join(parts: seq<string>): string
    requires parts != []
  {
    if |parts| == 1 then parts[0] else parts[0] + ":" + Join(parts[1..])
  }

  lemma ColonAfter(a: string, s: string)
    requires ':' !in a
    ensures (a + ":" + s)[|a|] == ':' && forall k | 0 <= k < |a| :: (a + ":" + s)[k] != ':'
    ensures (a + ":" + s)[..|a|] == a && (a + ":" + s)[|a| + 1..] == s
  {
  }

  lemma JoinFirst(a: string, b: string, s: string, t: string)
    requires ':' !in a && ':' !in b
    requires a + ":" + s == b + ":" + t
    ensures a == b && s == t
  {
    ColonAfter(a, s);
    ColonAfter(b, t);
  }

  lemma ColonBefore(s: string, a: string)
    requires ':' !in a
    ensures (s + ":" + a)[|s|] == ':' && forall k | |s| < k < |s + ":" + a| :: (s + ":" + a)[k] != ':'
    ensures (s + ":" + a)[..|s|] == s && (s + ":" + a)[|s| + 1..] == a
  {
  }

  lemma JoinLast(s: string, t: string, a: string, b: string)
    requires ':' !in a && ':' !in b
    requires s + ":" + a == t + ":" + b
    ensures s == t && a == b
  {
    ColonBefore(s, a);
    ColonBefore(t, b);
  }

  // ---------------------------------------------------------------------------
  // Fingerprint and identity
  // ---------------------------------------------------------------------------

  function Fingerprint(p: Payload): Option<string> {
    var risk := GetOr(p.risk, "unknown");
    if p.eventId.Some? then
      if Filled(p.resolvedAt) then Some(Join(["event", IntText(p.eventId.value), "resolved"]))
      else Some(Join(["event", IntText(p.eventId.value), risk]))
    else
      var alarmType := GetOr(p.alarmType, "");
      if alarmType == "power_anomaly_ai" then
        var meta := if p.meta.Some? then p.meta.value else Meta(None, None);
        if meta.device.None? || meta.channel.None? then None
        else Some(Join(["ai", alarmType, meta.device.value, IntText(meta.channel.value), risk]))
      else if alarmType == "gas_clear" || alarmType == "power_clear" then
        if Filled(p.sourceLabel) then Some(Join(["clear", alarmType, p.sourceLabel.value])) else None
      else if alarmType == "power_overload" then
        if Filled(p.source) && Filled(p.sourceLabel) then
          Some(Join(["cover", p.source.value, p.sourceLabel.value, risk]))
        else None
      else None
  }

  /** What a payload announces, for the purpose of deduplication. */
  datatype Identity =
    | EventResolved(event: int)
    | EventAtRisk(event: int, risk: string)
    | AiAlarm(device: string, channel: int, risk: string)
    | BackToNormal(gas: bool, name: string)
    | StaticCover(source: string, name: string, risk: string)

  function Identify(p: Payload): Option<Identity> {
    var risk := GetOr(p.risk, "unknown");
    match p
    case Payload(Some(e), _, _, _, _, _, _) =>
      Some(if Filled(p.resolvedAt) then EventResolved(e) else EventAtRisk(e, risk))
    case Payload(None, _, _, Some("power_anomaly_ai"), _, _, Some(Meta(Some(device), Some(channel)))) =>
      Some(AiAlarm(device, channel, risk))
    case Payload(None, _, _, Some(t), Some(name), _, _) =>
      if name == "" then None
      else if t == "gas_clear" || t == "power_clear" then Some(BackToNormal(t == "gas_clear", name))
      else if t == "power_overload" && Filled(p.source) then Some(StaticCover(p.source.value, name, risk))
      else None
    case _ => None
  }

  /** The parts that are written between colons hold none themselves, and no risk is called "resolved". */
  predicate Plain(i: Identity) {
    match i
    case EventAtRisk(_, risk) => risk != "resolved"
    case AiAlarm(_, _, risk) => ':' !in risk
    case StaticCover(source, _, risk) => ':' !in source && ':' !in risk
    case _ => true
  }

  function Tag(i: Identity): string {
    match i
    case EventResolved(_) => "event"
    case EventAtRisk(_, _) => "event"
    case AiAlarm(_, _, _) => "ai"
    case BackToNormal(_, _) => "clear"
    case StaticCover(_, _, _) => "cover"
  }

  function Tail(i: Identity): string {
    match i
    case EventResolved(e) => Join([IntText(e), "resolved"])
    case EventAtRisk(e, risk) => Join([IntText(e), risk])
    case AiAlarm(device, channel, risk) => Join(["power_anomaly_ai", device, IntText(channel), risk])
    case BackToNormal(gas, name) => Join([if gas then "gas_clear" else "power_clear", name])
    case StaticCover(source, name, risk) => Join([source, name, risk])
  }

  function Key(i: Identity): string {
    Tag(i) + ":" + Tail(i)
  }

  lemma FingerprintOfIdentity(p: Payload)
    ensures Fingerprint(p).Some? <==> Identify(p).Some?
    ensures Identify(p).Some? ==> Fingerprint(p).value == Key(Identify(p).value)
  {
  }

  lemma Join2(a: string, b: string)
    ensures Join([a, b]) == a + ":" + b
  {
  }

  lemma Join3(a: string, b: string, c: string)
    ensures Join([a, b, c]) == a + ":" + (b + ":" + c)
  {
    assert [a, b, c][1..] == [b, c];
    Join2(b, c);
  }

  lemma EventTailInjective(event: int, last: string, j: Identity)
    requires Tag(j) == "event" && Join([IntText(event), last]) == Tail(j)
    ensures j == (if j.EventResolved? then EventResolved(event) else EventAtRisk(event, last))
    ensures j.EventResolved? ==> last == "resolved"
  {
    var last' := match j case EventResolved(_) => "resolved" case EventAtRisk(_, r) => r;
    Join2(IntText(event), last);
    Join2(IntText(j.event), last');
    JoinFirst(IntText(event), IntText(j.event), last, last');
    IntTextInjective(event, j.event);
  }

  /** Within one kind of key, the parts can be read back. */
  lemma TailInjective(i: Identity, j: Identity)
    requires Plain(i) && Plain(j) && Tag(i) == Tag(j) && Tail(i) == Tail(j)
    ensures i == j
  {
    match i
    case AiAlarm(d, c, r) =>
      AiTail(d, c, r);
      AiTail(j.device, j.channel, j.risk);
      JoinFirst("power_anomaly_ai", "power_anomaly_ai", d + ":" + IntText(c) + ":" + r,
                j.device + ":" + IntText(j.channel) + ":" + j.risk);
      JoinLast(d + ":" + IntText(c), j.device + ":" + IntText(j.channel), r, j.risk);
      JoinLast(d, j.device, IntText(c), IntText(j.channel));
      IntTextInjective(c, j.channel);
    case BackToNormal(g, l) =>
      var s, t := if g then "gas_clear" else "power_clear", if j.gas then "gas_clear" else "power_clear";
      Join2(s, l);
      Join2(t, j.name);
      JoinFirst(s, t, l, j.name);
      assert "gas_clear"[0] != "power_clear"[0];
    case StaticCover(s, l, r) =>
      Join3(s, l, r);
      Join3(j.source, j.name, j.risk);
      JoinFirst(s, j.source, l + ":" + r, j.name + ":" + j.risk);
      JoinLast(l, j.name, r, j.risk);
    case EventResolved(e) => EventTailInjective(e, "resolved", j);
    case EventAtRisk(e, r) => EventTailInjective(e, r, j);
  }

  lemma AiTail(device: string, channel: int, risk: string)
    ensures Tail(AiAlarm(device, channel, risk)) ==
            "power_anomaly_ai" + ":" + (device + ":" + IntText(channel) + ":" + risk)
  {
    var c := IntText(channel);
    assert ["power_anomaly_ai", device, c, risk][1..] == [device, c, risk];
    Join3(device, c, risk);
    assert device + ":" + (c + ":" + risk) == device + ":" + c + ":" + risk;
  }

  lemma KeyInjective(i: Identity, j: Identity)
    requires Plain(i) && Plain(j)
    ensures Key(i) == Key(j) <==> i == j
  {
    if Key(i) == Key(j) {
      JoinFirst(Tag(i), Tag(j), Tail(i), Tail(j));
      assert "clear"[1] != "cover"[1];
      TailInjective(i, j);
    }
  }

  /** Keys of different kinds differ, whatever the parts hold. */
  lemma KeysOfOtherKindDiffer(i: Identity, j: Identity)
    requires Tag(i) != Tag(j)
    ensures Key(i) != Key(j)
  {
    if Key(i) == Key(j) {
      JoinFirst(Tag(i), Tag(j), Tail(i), Tail(j));
    }
  }

  /** Among events the only collision is that of a resolution with an alarm whose risk is called "resolved". */
  lemma EventKeysCollideIff(i: Identity, j: Identity)
    requires (i.EventAtRisk? || i.EventResolved?) && (j.EventAtRisk? || j.EventResolved?)
    ensures Key(i) == Key(j) <==>
            && i.event == j.event
            && (if i.EventAtRisk? then i.risk else "resolved") == (if j.EventAtRisk? then j.risk else "resolved")
  {
    var last := if i.EventAtRisk? then i.risk else "resolved";
    if Key(i) == Key(j) {
      JoinFirst("event", "event", Tail(i), Tail(j));
      EventTailInjective(i.event, last, j);
    }
  }

  /** Static alarms collide iff source is the same and name and risk read the same once they are joined. */
  lemma CoverKeysCollideIff(i: Identity, j: Identity)
    requires i.StaticCover? && j.StaticCover? && ':' !in i.source && ':' !in j.source
    ensures Key(i) == Key(j) <==> i.source == j.source && i.name + ":" + i.risk == j.name + ":" + j.risk
  {
    Join3(i.source, i.name, i.risk);
    Join3(j.source, j.name, j.risk);
    if Key(i) == Key(j) {
      JoinFirst("cover", "cover", Tail(i), Tail(j));
      JoinFirst(i.source, j.source, i.name + ":" + i.risk, j.name + ":" + j.risk);
    }
  }

  /** AI alarms collide iff device, channel and risk read the same once they are joined. */
  lemma AiKeysCollideIff(i: Identity, j: Identity)
    requires i.AiAlarm? && j.AiAlarm?
    ensures Key(i) == Key(j) <==>
            i.device + ":" + IntText(i.channel) + ":" + i.risk == j.device + ":" + IntText(j.channel) + ":" + j.risk
  {
    AiTail(i.device, i.channel, i.risk);
    AiTail(j.device, j.channel, j.risk);
    if Key(i) == Key(j) {
      JoinFirst("ai", "ai", Tail(i), Tail(j));
      JoinFirst("power_anomaly_ai", "power_anomaly_ai", i.device + ":" + IntText(i.channel) + ":" + i.risk,
                j.device + ":" + IntText(j.channel) + ":" + j.risk);
    }
  }

  /** Notices that a value is back to normal never collide, whatever the names hold. */
  lemma ClearKeysAreApart(i: Identity, j: Identity)
    requires i.BackToNormal? && j.BackToNormal?
    ensures Key(i) == Key(j) <==> i == j
  {
    KeyInjective(i, j);
  }

  /** Without plain risks AI keys do collide: a device takes up what the other's channel and risk give. */
  lemma AiKeysWithColonsCollide()
    ensures var i, j := AiAlarm("a", 1, "2:b"), AiAlarm("a:1", 2, "b"); Key(i) == Key(j) && i != j
  {
    AiKeysCollideIff(AiAlarm("a", 1, "2:b"), AiAlarm("a:1", 2, "b"));
    assert Digits(1) == "1" && Digits(2) == "2";
    assert "a" + ":" + "1" + ":" + "2:b" == "a:1" + ":" + "2" + ":" + "b";
  }

  /** Two payloads get the same key iff they announce the same thing. */
  lemma SameFingerprintIffSameIdentity(p: Payload, q: Payload)
    requires Identify(p).Some? && Plain(Identify(p).value)
    requires Identify(q).Some? && Plain(Identify(q).value)
    ensures Fingerprint(p) == Fingerprint(q) <==> Identify(p) == Identify(q)
  {
    FingerprintOfIdentity(p);
    FingerprintOfIdentity(q);
    KeyInjective(Identify(p).value, Identify(q).value);
  }

  /** Without plain parts keys collide: the label takes what the risk gives up, and a risk may pose as a resolution. */
  lemma ColonsAndResolvedCollide()
    ensures var cover := Payload(None, Some("c:d"), None, Some("power_overload"), Some("b"), Some("a"), None);
            var other := cover.(risk := Some("d"), sourceLabel := Some("b:c"));
            Fingerprint(cover) == Fingerprint(other) && Identify(cover) != Identify(other)
    ensures var alarm := Payload(Some(7), Some("resolved"), None, None, None, None, None);
            var signal := alarm.(risk := Some("danger"), resolvedAt := Some("2026-01-01"));
            Fingerprint(alarm) == Fingerprint(signal) && Identify(alarm) != Identify(signal)
  {
    Join3("a", "b", "c:d");
    Join3("a", "b:c", "d");
    assert ["cover", "a", "b", "c:d"][1..] == ["a", "b", "c:d"];
    assert ["cover", "a", "b:c", "d"][1..] == ["a", "b:c", "d"];
    assert "b" + ":" + "c:d" == "b:c" + ":" + "d";
  }
}
