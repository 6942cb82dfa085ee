/** Topic strings: printer and parser. */
module MqttTopics {
  import opened Common

  datatype Kind = State | Set | Ack | Telemetry | Status | ControlCommand | ControlRequest | ControlReply

  datatype Topic = Topic(houseId: string, deviceId: string, kind: Kind)

  function KindText(k: Kind): string {
    match k
    case State => "state"
    case Set => "set"
    case Ack => "ack"
    case Telemetry => "telemetry"
    case Status => "status"
    case ControlCommand => "control/command"
    case ControlRequest => "control/request"
    case ControlReply => "control/reply"
  }

  function KindOf(text: string): Option<Kind> {
    if text == "state" then Some(State)
    else if text == "set" then Some(Set)
    else if text == "ack" then Some(Ack)
    else if text == "telemetry" then Some(Telemetry)
    else if text == "status" then Some(Status)
    else if text == "control/command" then Some(ControlCommand)
    else if text == "control/request" then Some(ControlRequest)
    else if text == "control/reply" then Some(ControlReply)
    else None
  }

  predicate AlphaNumeric(c: char) {
    'A' <= c <= 'Z' || 'a' <= c <= 'z' || '0' <= c <= '9'
  }

  predicate ValidIdentifier(s: string) {
    && 1 <= |s| <= 128 && AlphaNumeric(s[0])
    && forall i :: 0 <= i < |s| ==> AlphaNumeric(s[i]) || s[i] == '_' || s[i] == '.' || s[i] == '-'
  }

  function Build(houseId: string, deviceId: string, kind: Kind): Option<string> {
    if ValidIdentifier(houseId) && ValidIdentifier(deviceId)
    then Some("kzhome" + "/" + ("v1" + "/" + (houseId + "/" + (deviceId + "/" + KindText(kind)))))
    else None
  }

  function Split(s: string): (parts: seq<string>)
    ensures parts != []
  {
    if s == [] then [""]
    else
      var rest := Split(s[1..]);
      if s[0] == '/' then [""] + rest else [[s[0]] + rest[0]] + rest[1..]
  }

  function Join(parts: seq<string>): string
    requires parts != []
  {
    if |parts| == 1 then parts[0] else parts[0] + "/" + Join(parts[1..])
  }

  function Parse(topic: string): Option<Topic> {
    var parts := Split(topic);
    if |parts| != 5 && |parts| != 6 then None
    else if parts[0] != "kzhome" || parts[1] != "v1" then None
    else if !ValidIdentifier(parts[2]) || !ValidIdentifier(parts[3]) then None
    else if KindOf(Join(parts[4..])).None? then None
    else Some(Topic(parts[2], parts[3], KindOf(Join(parts[4..])).value))
  }

  predicate OneSegment(s: string) {
    '/' !in s
  }

  lemma {:induction false} SplitTakesFirst(a: string, rest: string)
    requires OneSegment(a)
    ensures Split(a + "/" + rest) == [a] + Split(rest)
  {
    if a == [] {
      assert (a + "/" + rest)[1..] == rest;
    } else {
      SplitTakesFirst(a[1..], rest);
      assert (a + "/" + rest)[1..] == a[1..] + "/" + rest;
      assert [a[0]] + a[1..] == a;
    }
  }

  lemma {:induction false} JoinUndoesSplit(s: string)
    ensures Join(Split(s)) == s
  {
    if s != [] {
      JoinUndoesSplit(s[1..]);
      var rest := Split(s[1..]);
      if s[0] == '/' {
        assert Split(s)[1..] == rest;
        assert s == "/" + s[1..];
      } else {
        assert s == [s[0]] + s[1..];
        if |rest| > 1 {
          assert Split(s)[1..] == rest[1..];
        }
      }
    }
  }

  lemma IdentifiersAreSegments(s: string)
    requires ValidIdentifier(s)
    ensures OneSegment(s)
  {
  }

  lemma {:induction false} NoSlashNoSplit(s: string)
    requires OneSegment(s)
    ensures Split(s) == [s]
  {
    if s != [] {
      NoSlashNoSplit(s[1..]);
      assert [s[0]] + s[1..] == s;
    }
  }

  lemma TwoSegments(a: string, b: string)
    requires OneSegment(a) && OneSegment(b)
    ensures |Split(a + "/" + b)| == 2
  {
    hide Split;
    SplitTakesFirst(a, b);
    NoSlashNoSplit(b);
  }

  lemma KindSegments(k: Kind)
    ensures 1 <= |Split(KindText(k))| <= 2
  {
    hide Split;
    if k.ControlCommand? {
      TwoSegments("control", "command");
      assert KindText(k) == "control" + "/" + "command";
    } else if k.ControlRequest? {
      TwoSegments("control", "request");
      assert KindText(k) == "control" + "/" + "request";
    } else if k.ControlReply? {
      TwoSegments("control", "reply");
      assert KindText(k) == "control" + "/" + "reply";
    } else {
      NoSlashNoSplit(KindText(k));
    }
  }

  /** The words of the wire. */
  lemma TopicIs(houseId: string, deviceId: string, kind: Kind)
    ensures Build(houseId, deviceId, kind).Some? <==> ValidIdentifier(houseId) && ValidIdentifier(deviceId)
    ensures Build(houseId, deviceId, kind).Some? ==>
              Build(houseId, deviceId, kind).value == "kzhome/v1/" + houseId + "/" + deviceId + "/" +
                if kind == State then "state"
                else if kind == Set then "set"
                else if kind == Ack then "ack"
                else if kind == Telemetry then "telemetry"
                else if kind == Status then "status"
                else if kind == ControlCommand then "control/command"
                else if kind == ControlRequest then "control/request"
                else "control/reply"
  {
    hide ValidIdentifier;
    var h, d, k := houseId, deviceId, KindText(kind);
    assert "kzhome" + "/" + ("v1" + "/" + (h + "/" + (d + "/" + k))) == "kzhome/v1/" + h + "/" + d + "/" + k;
  }

  /** An identifier is a letter or digit, followed by at most 127 of those, '_', '.', '-'. */
  lemma IdentifierIs(s: string)
    ensures ValidIdentifier(s) <==>
              && s != [] && |s| <= 128 && s[0] !in {'_', '.', '-'}
              && forall c :: c in s ==> 'a' <= c <= 'z' || 'A' <= c <= 'Z' || '0' <= c <= '9' || c in {'_', '.', '-'}
  {
    assert forall i :: 0 <= i < |s| ==> s[i] in s;
    forall c | ValidIdentifier(s) && c in s
      ensures AlphaNumeric(c) || c == '_' || c == '.' || c == '-'
    {
      var i :| 0 <= i < |s| && s[i] == c;
    }
  }

  /** Parsing a built topic gives back house, device and kind, for one- and two-segment kinds. */
  lemma BuildThenParse(houseId: string, deviceId: string, kind: Kind)
    requires Build(houseId, deviceId, kind).Some?
    ensures Parse(Build(houseId, deviceId, kind).value) == Some(Topic(houseId, deviceId, kind))
  {
    hide Split, ValidIdentifier, KindOf;
    var k := KindText(kind);
    assert OneSegment("kzhome") && OneSegment("v1");
    IdentifiersAreSegments(houseId);
    IdentifiersAreSegments(deviceId);
    SplitTakesFirst("kzhome", "v1" + "/" + (houseId + "/" + (deviceId + "/" + k)));
    SplitTakesFirst("v1", houseId + "/" + (deviceId + "/" + k));
    SplitTakesFirst(houseId, deviceId + "/" + k);
    SplitTakesFirst(deviceId, k);
    KindSegments(kind);
    JoinUndoesSplit(k);
    KindRoundTrip(kind);
    assert Split(Build(houseId, deviceId, kind).value)[4..] == Split(k);
  }

  lemma KindRoundTrip(kind: Kind)
    ensures KindOf(KindText(kind)) == Some(kind)
  {
    assert |"state"| == 5 && |"status"| == 6 && |"set"| == 3 && |"ack"| == 3 && |"telemetry"| == 9;
    assert |"control/command"| == 15 && |"control/request"| == 15 && |"control/reply"| == 13;
    assert "set"[0] == 's' && "ack"[0] == 'a' && "control/command"[8] == 'c' && "control/request"[8] == 'r';
  }

  /** Building from any parsed topic gives back the very string. */
  lemma ParseThenBuild(topic: string)
    requires Parse(topic).Some?
    ensures var t := Parse(topic).value; Build(t.houseId, t.deviceId, t.kind) == Some(topic)
  {
    hide Split, ValidIdentifier;
    var parts := Split(topic);
    JoinUndoesSplit(topic);
    assert parts[1..][1..] == parts[2..] && parts[2..][1..] == parts[3..] && parts[3..][1..] == parts[4..];
    assert Join(parts) == parts[0] + "/" + Join(parts[1..]);
    assert Join(parts[1..]) == parts[1] + "/" + Join(parts[2..]);
    assert Join(parts[2..]) == parts[2] + "/" + Join(parts[3..]);
    assert Join(parts[3..]) == parts[3] + "/" + Join(parts[4..]);
  }

  /** No two destinations share a topic. */
  lemma TopicsAreUnambiguous(h: string, d: string, k: Kind, h': string, d': string, k': Kind)
    requires Build(h, d, k).Some? && Build(h, d, k) == Build(h', d', k')
    ensures h == h' && d == d' && k == k'
  {
    hide Parse, Build;
    BuildThenParse(h, d, k);
    BuildThenParse(h', d', k');
  }
}
