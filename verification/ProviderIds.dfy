/**
 The provider id of a machine: how it is printed, and how the recorded host is read back from it.
 */
module ProviderIds {
  import opened CloudModel

  function Format(project: string, zone: string, host: string): string {
    "ucloud://" + project + "/" + zone + "/" + host
  }

  /** What follows the last slash. */
  function LastSegment(s: string): (t: string)
    ensures '/' !in t && |t| <= |s| && s[|s| - |t|..] == t
  {
    if s == "" || s[|s| - 1] == '/' then "" else LastSegment(s[..|s| - 1]) + [s[|s| - 1]]
  }

  /** The instance id in a provider id; an empty one is an error. */
  function Parse(p: string): Option<string> {
    var t := LastSegment(p);
    if t == "" then None else Some(t)
  }

  lemma {:induction false} LastOfTail(head: string, host: string)
    requires '/' !in host
    ensures LastSegment(head + "/" + host) == host
  {
    var s := head + "/" + host;
    if host != "" {
      var front := host[..|host| - 1];
      assert s[..|s| - 1] == head + "/" + front;
      LastOfTail(head, front);
    }
  }

  /** Printing then parsing returns the host id exactly when it is non-empty and has no slash. */
  lemma PrintParse(project: string, zone: string, host: string)
    ensures Parse(Format(project, zone, host)) == Some(host) <==> host != "" && '/' !in host
  {
    if '/' !in host {
      var head := "ucloud://" + project + "/" + zone;
      LastOfTail(head, host);
    }
  }

  /** Before the host comes its zone, and before the zone the project. */
  lemma ZoneComesBefore(project: string, zone: string, host: string)
    requires '/' !in zone && '/' !in host && '/' !in project
    ensures
      var s := Format(project, zone, host);
      var front := s[..|s| - |host| - 1];
      && |s| > |host| && front + "/" + host == s && LastSegment(front) == zone
      && LastSegment(front[..|front| - |zone| - 1]) == project
  {
    var s := Format(project, zone, host);
    var front := "ucloud://" + project + "/" + zone;
    assert s == front + "/" + host && s[..|s| - |host| - 1] == front;
    LastOfTail("ucloud://" + project, zone);
    assert front[..|front| - |zone| - 1] == "ucloud:/" + "/" + project;
    LastOfTail("ucloud:/", project);
  }

  // ----- Host ids as text -----

  function Digit(d: nat): char
    requires d < 10
  {
    "0123456789"[d]
  }

  function DigitValue(c: char): Option<nat> {
    if '0' <= c <= '9' then Some((c - '0') as nat) else None
  }

  function Text(id: Id): (s: string)
    ensures s != "" && '/' !in s
  {
    if id < 10 then [Digit(id)] else Text(id / 10) + [Digit(id % 10)]
  }

  /** The id a text stands for; a text that is none of the cloud's ids stands for no host. */
  function Number(s: string): Option<Id> {
    if s == "" then None else
    match DigitValue(s[|s| - 1])
    case None => None
    case Some(d) =>
      if |s| == 1 then Some(d) else
      match Number(s[..|s| - 1])
      case None => None
      case Some(n) => Some(10 * n + d)
  }

  lemma {:induction false} NumberOfText(id: Id)
    ensures Number(Text(id)) == Some(id)
  {
    if id >= 10 {
      NumberOfText(id / 10);
    }
  }

  /** The host a provider id stands for. */
  function HostOf(providerId: string): Option<Id> {
    match Parse(providerId)
    case None => None
    case Some(t) => Number(t)
  }

  lemma FormatRecords(project: string, zone: string, id: Id)
    ensures Parse(Format(project, zone, Text(id))) == Some(Text(id))
    ensures HostOf(Format(project, zone, Text(id))) == Some(id)
  {
    PrintParse(project, zone, Text(id));
    NumberOfText(id);
  }
}
