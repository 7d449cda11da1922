// Provider IDs of nodes: printing, strict parsing, and the lenient reading used
// when security groups are attached.
module ProviderIDs {
  import opened Types

  const PROVIDER := "edgecenter"

  // buildProviderID
  function BuildProviderID(instanceID: string): string {
    PROVIDER + ":///" + instanceID
  }

  predicate At(s: string, i: nat, sub: string) {
    i + |sub| <= |s| && s[i..i + |sub|] == sub
  }

  predicate Contains(s: string, sub: string) {
    exists i :: 0 <= i <= |s| && At(s, i, sub)
  }

  // Matching ^edgecenter:///([^/]+)$
  function MatchProviderID(s: string): Option<string> {
    if BuildProviderID("") <= s then
      var id := s[|BuildProviderID("")|..];
      if id != "" && '/' !in id then Some(id) else None
    else None
  }

  // instanceIDFromProviderID
  function InstanceIDFromProviderID(providerID: string): Option<string> {
    if providerID != "" && !Contains(providerID, "://") then MatchProviderID(PROVIDER + "://" + providerID)
    else MatchProviderID(providerID)
  }

  predicate InstanceIDText(id: string) {
    id != "" && '/' !in id
  }

  lemma MatchIsExact(s: string, id: string)
    ensures MatchProviderID(s) == Some(id) <==> s == BuildProviderID(id) && InstanceIDText(id)
  {
    var head := BuildProviderID("");
    assert BuildProviderID(id) == head + id;
    assert (head + id)[|head|..] == id;
    if head <= s {
      assert s == head + s[|head|..];
    }
  }

  lemma BuiltContainsScheme(id: string)
    ensures Contains(BuildProviderID(id), "://")
  {
    assert At(BuildProviderID(id), 10, "://");
  }

  lemma SlashHasNoScheme(id: string)
    requires '/' !in id
    ensures !Contains("/" + id, "://")
  {
    var s := "/" + id;
    forall i | 0 <= i <= |s| ensures !At(s, i, "://") {
      if i + 3 <= |s| {
        assert s[i..i + 3][1] == s[i + 1] == id[i];
      }
    }
  }

  lemma BuiltSpelledOut(id: string)
    ensures BuildProviderID(id) == "edgecenter:///" + id
  {
  }

  // Accepted are exactly "edgecenter:///<id>" and "/<id>", with <id> non-empty
  // and free of slashes; and <id> is what comes out.
  lemma AcceptedProviderIDs(s: string, id: string)
    ensures InstanceIDFromProviderID(s) == Some(id) <==>
            (id != "" && '/' !in id && (s == "edgecenter:///" + id || s == "/" + id))
  {
    BuiltSpelledOut(id);
    MatchIsExact(s, id);
    var longer := PROVIDER + "://" + s;
    MatchIsExact(longer, id);
    assert BuildProviderID(id) == PROVIDER + "://" + ("/" + id);
    BuiltContainsScheme(id);
    if '/' !in id {
      SlashHasNoScheme(id);
    }
    if longer == BuildProviderID(id) {
      assert longer[13..] == s && BuildProviderID(id)[13..] == "/" + id;
    }
  }

  lemma BuildInjective(id: string, other: string)
    ensures BuildProviderID(id) == BuildProviderID(other) <==> id == other
    ensures BuildProviderID(id) != "/" + other
  {
    assert BuildProviderID(id)[13..] == "/" + id && BuildProviderID(other)[13..] == "/" + other;
    assert ("/" + id)[1..] == id && ("/" + other)[1..] == other;
    assert BuildProviderID(id)[0] == 'e';
  }

  lemma ProviderIDRoundTrip(id: string)
    ensures InstanceIDFromProviderID(BuildProviderID(id)) == if id != "" && '/' !in id then Some(id) else None
  {
    BuiltSpelledOut(id);
    AcceptedProviderIDs(BuildProviderID(id), id);
    forall other { BuildInjective(id, other); }
    var r := InstanceIDFromProviderID(BuildProviderID(id));
    if r.Some? {
      AcceptedProviderIDs(BuildProviderID(id), r.value);
    }
  }

  // What follows the last slash; the whole text if there is none.
  function AfterLastSlash(s: string): string {
    if s == "" then ""
    else if s[|s| - 1] == '/' then ""
    else AfterLastSlash(s[..|s| - 1]) + [s[|s| - 1]]
  }

  lemma {:induction false} AfterLastSlashIs(head: string, id: string)
    requires '/' !in id
    ensures AfterLastSlash(head + "/" + id) == id
  {
    var s := head + "/" + id;
    if id != "" {
      var shorter := id[..|id| - 1];
      assert s[..|s| - 1] == head + "/" + shorter;
      AfterLastSlashIs(head, shorter);
      assert id == shorter + [id[|id| - 1]];
    }
  }

  // The text part of getNodeInstanceID; None sends it to a lookup by name.
  function NodeInstanceID(providerID: string): Option<string> {
    var id := AfterLastSlash(providerID);
    if id != "" then Some(id) else None
  }

  // The instance is what follows the last slash, or all of a text without one; if
  // that is nothing the node's name decides.
  lemma NodeInstanceIDIs(head: string, id: string)
    requires '/' !in id
    ensures NodeInstanceID(head + "/" + id) == if id != "" then Some(id) else None
    ensures NodeInstanceID(id) == if id != "" then Some(id) else None
  {
    AfterLastSlashIs(head, id);
    WithoutSlash(id);
  }

  lemma {:induction false} WithoutSlash(id: string)
    requires '/' !in id
    ensures AfterLastSlash(id) == id
  {
    if id != "" {
      WithoutSlash(id[..|id| - 1]);
      assert id == id[..|id| - 1] + [id[|id| - 1]];
    }
  }

  // The lenient reading agrees with the strict one on all it accepts.
  lemma ReadingsAgree(s: string)
    requires InstanceIDFromProviderID(s).Some?
    ensures NodeInstanceID(s) == InstanceIDFromProviderID(s)
  {
    var id := InstanceIDFromProviderID(s).value;
    AcceptedProviderIDs(s, id);
    if s == "/" + id {
      assert s == "" + "/" + id;
      AfterLastSlashIs("", id);
    } else {
      assert s == "edgecenter://" + "/" + id;
      AfterLastSlashIs("edgecenter://", id);
    }
  }

  lemma AcceptedStart(s: string)
    ensures InstanceIDFromProviderID(s).Some? ==> |s| > 0 && (s[0] == 'e' || s[0] == '/')
  {
    var r := InstanceIDFromProviderID(s);
    if r.Some? {
      AcceptedProviderIDs(s, r.value);
      assert BuildProviderID(r.value)[0] == 'e' && ("/" + r.value)[0] == '/';
    }
  }

  // It also reads texts that the strict one refuses.
  lemma LenientAcceptsMore()
    ensures InstanceIDFromProviderID("openstack:///x") == None && NodeInstanceID("openstack:///x") == Some("x")
  {
    AcceptedStart("openstack:///x");
    assert "openstack:///x" == "openstack://" + "/" + "x";
    AfterLastSlashIs("openstack://", "x");
  }
}
