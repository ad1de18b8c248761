/** The option string handed to the Byteman agent when the controller loads it itself:
    `buildPropertyOption` and the option assembly of `installFromVM`. */
module AgentOptions {
  import opened Outcomes
  import opened Strings

  const ListenerFragment := "listener:true"

  predicate CommaFree(s: string) {
    ',' !in s
  }

  predicate AllCommaFree(fragments: seq<string>) {
    forall i :: 0 <= i < |fragments| ==> CommaFree(fragments[i])
  }

  /** `,f1,f2,...,fn`: every fragment preceded by a comma, in the given order. */
  function CommaPrefixed(fragments: seq<string>): string {
    if fragments == [] then "" else "," + fragments[0] + CommaPrefixed(fragments[1..])
  }

  lemma {:induction false} CommaPrefixedConcat(a: seq<string>, b: seq<string>)
    ensures CommaPrefixed(a + b) == CommaPrefixed(a) + CommaPrefixed(b)
  {
    if a == [] {
      assert a + b == b;
    } else {
      assert (a + b)[1..] == a[1..] + b;
      CommaPrefixedConcat(a[1..], b);
    }
  }

  /** The reference reader of an option list: the pieces between commas, empty ones included. */
  function Fragments(s: string): (parts: seq<string>)
    ensures |parts| > 0
    decreases |s|
  {
    if s == [] then [""]
    else
      var rest := Fragments(s[1..]);
      if s[0] == ',' then [""] + rest else [[s[0]] + rest[0]] + rest[1..]
  }

  lemma {:induction false} FragmentsAfterCommaFree(f: string, t: string)
    requires CommaFree(f)
    ensures Fragments(f + t) == [f + Fragments(t)[0]] + Fragments(t)[1..]
    decreases |f|
  {
    if f == [] {
      assert f + t == t;
      assert f + Fragments(t)[0] == Fragments(t)[0];
      assert [Fragments(t)[0]] + Fragments(t)[1..] == Fragments(t);
    } else {
      assert (f + t)[1..] == f[1..] + t;
      FragmentsAfterCommaFree(f[1..], t);
      assert [f[0]] + (f[1..] + Fragments(t)[0]) == f + Fragments(t)[0];
    }
  }

  /** Joining comma-free fragments with commas and reading them back gives the same fragments. */
  lemma {:induction false} FragmentsRoundTrip(head: string, tail: seq<string>)
    requires CommaFree(head) && AllCommaFree(tail)
    ensures Fragments(head + CommaPrefixed(tail)) == [head] + tail
    decreases |tail|
  {
    if tail == [] {
      assert head + CommaPrefixed(tail) == head + "";
      FragmentsAfterCommaFree(head, "");
      assert head + "" == head;
    } else {
      var t := "," + tail[0] + CommaPrefixed(tail[1..]);
      FragmentsAfterCommaFree(head, t);
      assert t[1..] == tail[0] + CommaPrefixed(tail[1..]);
      FragmentsRoundTrip(tail[0], tail[1..]);
      assert Fragments(t) == [""] + tail;
      assert head + "" == head;
    }
  }

  /** One `prop:` entry per property, in the order supplied. */
  function PropEntries(properties: seq<string>): (entries: seq<string>)
    ensures |entries| == |properties|
  {
    seq(|properties|, i requires 0 <= i < |properties| => "prop:" + properties[i])
  }

  /** What `buildPropertyOption` returns: nothing for a null array. */
  function PropertyOption(properties: Option<seq<string>>): string {
    match properties
    case None => ""
    case Some(ps) => CommaPrefixed(PropEntries(ps))
  }

  /** `buildPropertyOption`: appends `,prop:` and the property for each element, in a loop. */
  method BuildPropertyOption(properties: Option<seq<string>>) returns (props: string)
    ensures props == PropertyOption(properties)
  {
    if properties.Some? {
      var ps := properties.value;
      var builder := "";
      for i := 0 to |ps|
        invariant builder == CommaPrefixed(PropEntries(ps[..i]))
      {
        builder := builder + ",prop:";
        builder := builder + ps[i];
        assert PropEntries(ps[..i + 1]) == PropEntries(ps[..i]) + ["prop:" + ps[i]];
        CommaPrefixedConcat(PropEntries(ps[..i]), ["prop:" + ps[i]]);
      }
      assert ps[..|ps|] == ps;
      props := builder;
    } else {
      props := "";
    }
  }

  /** The property option of a concatenation is the concatenation of the property options:
      every occurrence contributes its own fragment, so nothing is deduplicated. */
  lemma PropertyOptionConcat(a: seq<string>, b: seq<string>)
    ensures PropertyOption(Some(a + b)) == PropertyOption(Some(a)) + PropertyOption(Some(b))
  {
    assert PropEntries(a + b) == PropEntries(a) + PropEntries(b);
    CommaPrefixedConcat(PropEntries(a), PropEntries(b));
  }

  /** Read back, the property option is an empty lead piece and then one `prop:` entry per
      property, in the order supplied. */
  lemma PropertyOptionRoundTrip(ps: seq<string>)
    requires AllCommaFree(ps)
    ensures Fragments(PropertyOption(Some(ps))) == [""] + PropEntries(ps)
  {
    FragmentsRoundTrip("", PropEntries(ps));
    assert "" + CommaPrefixed(PropEntries(ps)) == CommaPrefixed(PropEntries(ps));
  }

  /** The list entry of an option that is present only under a condition. */
  function Entry(present: bool, entry: string): seq<string> {
    if present then [entry] else []
  }

  /** The text of an option that is present only under a condition. */
  function Piece(present: bool, entry: string): string {
    if present then "," + entry else ""
  }

  function HostGiven(host: Option<string>): bool {
    host.Some? && |host.value| != 0
  }

  function ValueOr(o: Option<string>): string {
    match o case None => "" case Some(v) => v
  }

  /** The entries after `listener:true`, in the order the agent receives them. */
  function OptionEntries(host: Option<string>, port: int, setPolicy: bool,
                         properties: Option<seq<string>>, boot: Option<string>): seq<string>
  {
    Entry(HostGiven(host), "address:" + ValueOr(host))
    + Entry(port != 0, "port:" + IntToDecimal(port))
    + Entry(setPolicy, "policy:true")
    + (match properties case None => [] case Some(ps) => PropEntries(ps))
    + Entry(boot.Some?, "boot:" + ValueOr(boot))
  }

  /** The agent option string `installFromVM` loads the agent with; `boot` is the agent jar
      when the agent is to be added to the boot class path. */
  function AgentOptionString(host: Option<string>, port: int, setPolicy: bool,
                             properties: Option<seq<string>>, boot: Option<string>): string
  {
    ListenerFragment + CommaPrefixed(OptionEntries(host, port, setPolicy, properties, boot))
  }

  /** Proof step: the comma-prefixed text of an optional entry is its piece. */
  lemma EntryPiece(present: bool, entry: string)
    ensures CommaPrefixed(Entry(present, entry)) == Piece(present, entry)
  {
    if present {
      assert [entry][1..] == [];
      assert "," + entry + "" == "," + entry;
    }
  }

  /** The option string is `listener:true`, then `,address:<host>` only for a non-null,
      non-empty host, `,port:<port>` only for a non-zero port, `,policy:true` only when asked
      for, the property option, and `,boot:<jar>` last, only when a jar is given. */
  lemma AgentOptionStringPieces(host: Option<string>, port: int, setPolicy: bool,
                                properties: Option<seq<string>>, boot: Option<string>)
    ensures AgentOptionString(host, port, setPolicy, properties, boot)
      == ListenerFragment
         + (Piece(HostGiven(host), "address:" + ValueOr(host))
            + Piece(port != 0, "port:" + IntToDecimal(port))
            + Piece(setPolicy, "policy:true")
            + PropertyOption(properties)
            + Piece(boot.Some?, "boot:" + ValueOr(boot)))
  {
    EntriesPieces(HostGiven(host), "address:" + ValueOr(host), port != 0, "port:" + IntToDecimal(port),
                  setPolicy, match properties case None => [] case Some(ps) => PropEntries(ps),
                  boot.Some?, "boot:" + ValueOr(boot));
  }

  lemma EntriesPieces(a: bool, address: string, p: bool, portEntry: string, s: bool,
                      props: seq<string>, b: bool, bootEntry: string)
    ensures CommaPrefixed(Entry(a, address) + Entry(p, portEntry) + Entry(s, "policy:true") + props + Entry(b, bootEntry))
         == Piece(a, address) + Piece(p, portEntry) + Piece(s, "policy:true") + CommaPrefixed(props) + Piece(b, bootEntry)
  {
    var A, P, S, B := Entry(a, address), Entry(p, portEntry), Entry(s, "policy:true"), Entry(b, bootEntry);
    EntryPiece(a, address);
    EntryPiece(p, portEntry);
    EntryPiece(s, "policy:true");
    EntryPiece(b, bootEntry);
    CommaPrefixedConcat(A + P + S + props, B);
    CommaPrefixedConcat(A + P + S, props);
    CommaPrefixedConcat(A + P, S);
    CommaPrefixedConcat(A, P);
  }

  /** The first half of `installFromVM`: `listener:true` and the optional host, port and
      policy entries, appended one after the other, then the property option. */
  method BaseAgentOptions(host: Option<string>, port: int, setPolicy: bool,
                          properties: Option<seq<string>>) returns (agentOptions: string)
    ensures agentOptions == AgentOptionString(host, port, setPolicy, properties, None)
  {
    ghost var a := Piece(HostGiven(host), "address:" + ValueOr(host));
    ghost var p := Piece(port != 0, "port:" + IntToDecimal(port));
    ghost var s := Piece(setPolicy, "policy:true");
    var props := BuildPropertyOption(properties);
    agentOptions := ListenerFragment;
    if host.Some? && |host.value| != 0 {
      agentOptions := agentOptions + ",address:" + host.value;
      assert agentOptions == ListenerFragment + a by {
        Associative(ListenerFragment, ",", "address:" + host.value);
        Associative(",", "address:", host.value);
        Associative(ListenerFragment, ",address:", host.value);
      }
    }
    assert agentOptions == ListenerFragment + a;
    ghost var withHost := agentOptions;
    if port != 0 {
      agentOptions := agentOptions + ",port:" + IntToDecimal(port);
      assert agentOptions == withHost + p by {
        Associative(withHost, ",", "port:" + IntToDecimal(port));
        Associative(",", "port:", IntToDecimal(port));
        Associative(withHost, ",port:", IntToDecimal(port));
      }
    }
    assert agentOptions == ListenerFragment + a + p;
    ghost var withPort := agentOptions;
    if setPolicy {
      agentOptions := agentOptions + ",policy:true";
      assert agentOptions == withPort + s by {
        PolicyPiece();
      }
    }
    assert agentOptions == withPort + s;
    agentOptions := agentOptions + props;
    BaseOptionsPieces(host, port, setPolicy, properties);
  }

  /** Without a boot entry the option string is the left-to-right concatenation of its parts. */
  lemma BaseOptionsPieces(host: Option<string>, port: int, setPolicy: bool,
                          properties: Option<seq<string>>)
    ensures AgentOptionString(host, port, setPolicy, properties, None)
         == ListenerFragment
            + Piece(HostGiven(host), "address:" + ValueOr(host))
            + Piece(port != 0, "port:" + IntToDecimal(port))
            + Piece(setPolicy, "policy:true")
            + PropertyOption(properties)
  {
    var a := Piece(HostGiven(host), "address:" + ValueOr(host));
    var p := Piece(port != 0, "port:" + IntToDecimal(port));
    var s := Piece(setPolicy, "policy:true");
    var props := PropertyOption(properties);
    AgentOptionStringPieces(host, port, setPolicy, properties, None);
    assert a + p + s + props + "" == a + p + s + props;
    Associative(ListenerFragment, a + p + s, props);
    Associative(ListenerFragment, a + p, s);
    Associative(ListenerFragment, a, p);
  }

  /** Adding the agent to the boot class path appends `,boot:<jar>` to the other options. */
  lemma BootOptionLast(host: Option<string>, port: int, setPolicy: bool,
                       properties: Option<seq<string>>, jar: string)
    ensures AgentOptionString(host, port, setPolicy, properties, Some(jar))
         == AgentOptionString(host, port, setPolicy, properties, None) + ",boot:" + jar
  {
    var x := Piece(HostGiven(host), "address:" + ValueOr(host))
             + Piece(port != 0, "port:" + IntToDecimal(port))
             + Piece(setPolicy, "policy:true")
             + PropertyOption(properties);
    AgentOptionStringPieces(host, port, setPolicy, properties, Some(jar));
    AgentOptionStringPieces(host, port, setPolicy, properties, None);
    assert x + "" == x;
    BootPiece(jar);
    Associative(ListenerFragment, x, ",boot:" + jar);
    Associative(ListenerFragment + x, ",boot:", jar);
  }

  /** Proof step, kept apart so that literal text is compared in a small context. */
  lemma BootPiece(jar: string)
    ensures Piece(true, "boot:" + jar) == ",boot:" + jar
  {
    Associative(",", "boot:", jar);
  }

  /** Proof step, kept apart so that literal text is compared in a small context. */
  lemma PolicyPiece()
    ensures Piece(true, "policy:true") == ",policy:true"
  {
  }

  /** Proof step: regrouping a string concatenation. */
  lemma Associative(x: string, y: string, z: string)
    ensures x + (y + z) == x + y + z
  {
  }

  /** The agent reads back exactly `listener:true` followed by the entries, in order, provided
      that the host, the properties and the jar path hold no comma. */
  lemma AgentOptionsRoundTrip(host: Option<string>, port: int, setPolicy: bool,
                              properties: Option<seq<string>>, boot: Option<string>)
    requires host.Some? ==> CommaFree(host.value)
    requires properties.Some? ==> AllCommaFree(properties.value)
    requires boot.Some? ==> CommaFree(boot.value)
    ensures Fragments(AgentOptionString(host, port, setPolicy, properties, boot))
         == [ListenerFragment] + OptionEntries(host, port, setPolicy, properties, boot)
  {
    OptionEntriesCommaFree(host, port, setPolicy, properties, boot);
    assert CommaFree(ListenerFragment) by {
      assert ListenerFragment == "listener:true";
    }
    FragmentsRoundTrip(ListenerFragment, OptionEntries(host, port, setPolicy, properties, boot));
  }

  /** With a comma-free host, properties and jar path, no entry holds a comma. */
  lemma OptionEntriesCommaFree(host: Option<string>, port: int, setPolicy: bool,
                               properties: Option<seq<string>>, boot: Option<string>)
    requires host.Some? ==> CommaFree(host.value)
    requires properties.Some? ==> AllCommaFree(properties.value)
    requires boot.Some? ==> CommaFree(boot.value)
    ensures AllCommaFree(OptionEntries(host, port, setPolicy, properties, boot))
  {
    var q := match properties case None => [] case Some(ps) => PropEntries(ps);
    if properties.Some? {
      PropEntriesCommaFree(properties.value);
    }
    var a := Entry(HostGiven(host), "address:" + ValueOr(host));
    var p := Entry(port != 0, "port:" + IntToDecimal(port));
    var s := Entry(setPolicy, "policy:true");
    var b := Entry(boot.Some?, "boot:" + ValueOr(boot));
    assert AllCommaFree(a) by {
      JoinCommaFree("address:", ValueOr(host));
      EntryCommaFree(HostGiven(host), "address:" + ValueOr(host));
    }
    assert AllCommaFree(p) by {
      IntToDecimalHasNoComma(port);
      JoinCommaFree("port:", IntToDecimal(port));
      EntryCommaFree(port != 0, "port:" + IntToDecimal(port));
    }
    assert AllCommaFree(s) by {
      EntryCommaFree(setPolicy, "policy:true");
    }
    assert AllCommaFree(b) by {
      JoinCommaFree("boot:", ValueOr(boot));
      EntryCommaFree(boot.Some?, "boot:" + ValueOr(boot));
    }
    AllCommaFreeConcat(a, p);
    AllCommaFreeConcat(a + p, s);
    AllCommaFreeConcat(a + p + s, q);
    AllCommaFreeConcat(a + p + s + q, b);
  }

  lemma PropEntriesCommaFree(ps: seq<string>)
    requires AllCommaFree(ps)
    ensures AllCommaFree(PropEntries(ps))
  {
    forall i | 0 <= i < |ps| ensures CommaFree(PropEntries(ps)[i]) {
      JoinCommaFree("prop:", ps[i]);
    }
  }

  /** Proof step: an optional entry without commas adds none. */
  lemma EntryCommaFree(present: bool, entry: string)
    requires CommaFree(entry)
    ensures AllCommaFree(Entry(present, entry))
  {
  }

  /** Proof step: joining comma-free texts gives a comma-free text. */
  lemma JoinCommaFree(x: string, y: string)
    requires CommaFree(x) && CommaFree(y)
    ensures CommaFree(x + y)
  {
  }

  /** Proof step: comma-freedom of entry lists is kept by concatenation. */
  lemma AllCommaFreeConcat(a: seq<string>, b: seq<string>)
    requires AllCommaFree(a) && AllCommaFree(b)
    ensures AllCommaFree(a + b)
  {
    forall i | 0 <= i < |a + b| ensures CommaFree((a + b)[i]) {
      if i < |a| { assert (a + b)[i] == a[i]; } else { assert (a + b)[i] == b[i - |a|]; }
    }
  }

  /** The options of the activation fallback (boot class path, no host, port 0, no policy):
      `listener:true`, one `prop:` entry per property in order, then `boot:<jar>`. */
  lemma FallbackActivationOptions(properties: seq<string>, jar: string)
    requires AllCommaFree(properties) && CommaFree(jar)
    ensures Fragments(AgentOptionString(None, 0, false, Some(properties), Some(jar)))
         == [ListenerFragment] + PropEntries(properties) + ["boot:" + jar]
  {
    AgentOptionsRoundTrip(None, 0, false, Some(properties), Some(jar));
    var q := PropEntries(properties);
    assert OptionEntries(None, 0, false, Some(properties), Some(jar)) == [] + [] + [] + q + ["boot:" + jar];
    assert [] + [] + [] + q + ["boot:" + jar] == q + ["boot:" + jar];
    AppendAssociative([ListenerFragment], q, ["boot:" + jar]);
  }

  /** Proof step: regrouping a sequence concatenation. */
  lemma AppendAssociative<T>(a: seq<T>, b: seq<T>, c: seq<T>)
    ensures a + (b + c) == a + b + c
  {
  }
}
