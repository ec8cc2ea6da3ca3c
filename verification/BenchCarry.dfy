/** A switch takes the monitor along (`carryPin` and `pinConnector` in agent/internal/app/app.go): backends name outputs each
    in their own way, and the connector is what they have in common. */
module BenchCarry {

  import opened Bench

  /** Device `i` is the first that the backend reports with that output. */
  predicate FirstOutput(devices: seq<Device>, output: string, i: nat) {
    i < |devices| && devices[i].output == output && forall k | 0 <= k < i :: devices[k].output != output
  }

  /** Device `j` is the first on the connector that has an output. */
  predicate FirstOn(devices: seq<Device>, key: string, j: nat) {
    && j < |devices| && devices[j].key == key && devices[j].output != ""
    && forall k | 0 <= k < j :: devices[k].key != key || devices[k].output == ""
  }

  /** The backend being left is pinned to the connector: its output names it behind a bar, or its first device with that
      output is on it. */
  ghost predicate PinnedOn(s: Bench, leaving: seq<Device>, connector: string) {
    var pin := OutputOf(s, s.active);
    && s.hasStream && pin != "" && !(VIRTUAL_PREFIX <= pin) && connector != ""
    && ((exists gpu :: '|' !in gpu && pin == gpu + ['|'] + connector)
        || ('|' !in pin && exists i: nat :: FirstOutput(leaving, pin, i) && leaving[i].key == connector))
  }

  lemma {:induction false} AfterBarFinds(gpu: string, connector: string)
    requires '|' !in gpu
    ensures AfterBar(gpu + ['|'] + connector) == Output(connector)
  {
    var s := gpu + ['|'] + connector;
    if gpu == "" {
      assert s[1..] == connector;
    } else {
      assert s[0] == gpu[0] && gpu[0] in gpu && s[1..] == gpu[1..] + ['|'] + connector;
      AfterBarFinds(gpu[1..], connector);
    }
  }

  lemma {:induction false} AfterBarIs(s: string) returns (gpu: string)
    ensures AfterBar(s).Missing? <==> '|' !in s
    ensures AfterBar(s).Output? ==> '|' !in gpu && s == gpu + ['|'] + AfterBar(s).name
  {
    gpu := "";
    if s != "" && s[0] != '|' {
      var more := AfterBarIs(s[1..]);
      gpu := [s[0]] + more;
      assert s == [s[0]] + s[1..];
    } else if s != "" {
      assert s == "" + ['|'] + s[1..];
    }
  }

  lemma {:induction false} KeyOfIs(devices: seq<Device>, output: string)
    ensures forall i: nat | FirstOutput(devices, output, i) :: KeyOf(devices, output) == devices[i].key
    ensures KeyOf(devices, output) != "" ==> exists i: nat :: FirstOutput(devices, output, i) && devices[i].key == KeyOf(devices, output)
  {
    if devices != [] {
      KeyOfIs(devices[1..], output);
      forall i: nat | FirstOutput(devices, output, i) ensures KeyOf(devices, output) == devices[i].key {
        if i > 0 { assert devices[0].output != output && FirstOutput(devices[1..], output, i - 1); }
      }
      if devices[0].output == output {
        assert FirstOutput(devices, output, 0);
      } else if KeyOf(devices, output) != "" {
        var i: nat :| FirstOutput(devices[1..], output, i) && devices[1..][i].key == KeyOf(devices, output);
        assert FirstOutput(devices, output, i + 1);
      }
    }
  }

  lemma {:induction false} ByKeyIs(devices: seq<Device>, key: string)
    ensures forall j: nat | FirstOn(devices, key, j) :: ByKey(devices, key) == Output(devices[j].output)
    ensures ByKey(devices, key).Output? ==> exists j: nat :: FirstOn(devices, key, j)
  {
    if devices != [] {
      ByKeyIs(devices[1..], key);
      forall j: nat | FirstOn(devices, key, j) ensures ByKey(devices, key) == Output(devices[j].output) {
        if j > 0 { assert FirstOn(devices[1..], key, j - 1); }
      }
      if devices[0].key == key && devices[0].output != "" {
        assert FirstOn(devices, key, 0);
      } else if ByKey(devices, key).Output? {
        var j: nat :| FirstOn(devices[1..], key, j);
        assert FirstOn(devices, key, j + 1);
      }
    }
  }

  lemma LeftConnectorIs(s: Bench, env: SwitchEnv, connector: string)
    requires connector != ""
    ensures LeftConnector(s, env) == connector <==> PinnedOn(s, env.leaving, connector)
  {
    var pin := OutputOf(s, s.active);
    var gpu := AfterBarIs(pin);
    KeyOfIs(env.leaving, pin);
    if PinnedOn(s, env.leaving, connector) && '|' in pin {
      var g :| '|' !in g && pin == g + ['|'] + connector;
      AfterBarFinds(g, connector);
    }
  }

  /** With no monitor pinned, a switch moves the backend it comes to onto the connector that the one being left is pinned
      to, and no other backend; where that is pinned to none, or the new one reports no output there, nothing moves. */
  lemma SwitchCarriesTheMonitor(s: Bench, kind: string, env: SwitchEnv)
    requires s.monitor == "" && env.available && kind != s.active
    ensures var n := Switch(s, kind, env);
            && (forall connector, j: nat | PinnedOn(s, env.leaving, connector) && FirstOn(env.coming, connector, j) && env.carryOk ::
                  MovedTo(s, n, kind, env.coming[j].output))
            && ((forall connector, j: nat :: PinnedOn(s, env.leaving, connector) ==> !FirstOn(env.coming, connector, j)) ==>
                  n.outputs == s.outputs)
            && (!env.carryOk ==> n.outputs == s.outputs)
  {
    var n, connector := Switch(s, kind, env), LeftConnector(s, env);
    UnpinnedSwitchCarries(s, kind, env);
    forall c, j: nat | PinnedOn(s, env.leaving, c) && FirstOn(env.coming, c, j) && env.carryOk
      ensures MovedTo(s, n, kind, env.coming[j].output)
    {
      LeftConnectorIs(s, env, c);
      ByKeyIs(env.coming, c);
    }
    if connector != "" && ByKey(env.coming, connector).Output? {
      LeftConnectorIs(s, env, connector);
      ByKeyIs(env.coming, connector);
      var j: nat :| FirstOn(env.coming, connector, j);
      assert PinnedOn(s, env.leaving, connector);
    } else {
      assert n.outputs == s.outputs;
    }
  }

  lemma UnpinnedSwitchCarries(s: Bench, kind: string, env: SwitchEnv)
    requires s.monitor == "" && env.available && kind != s.active
    ensures var n, connector := Switch(s, kind, env), LeftConnector(s, env);
            n.outputs == if Carries(s, kind, connector, env.coming, env.carryOk)
                         then s.outputs[kind := ByKey(env.coming, connector).name] else s.outputs
  {
  }
}
