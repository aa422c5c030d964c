/** Go slices over shared backing arrays, and the append calls on env and pull-secret slices spread over
    populatePodSpec, GetBuildContainer, GetCompilationContainer, EnsureFuncDeployment and UpdateDeployment. */
module GoSlices {
  import opened PodSpecs

  /** The first len elements of a backing array; the rest of the array is spare capacity. */
  datatype Slice<T> = Slice(buf: array<T>, len: nat)
  {
    ghost predicate Valid() { len <= buf.Length }

    ghost function View(): (r: seq<T>)
      requires Valid()
      reads buf
    {
      buf[..len]
    }
  }

  /** Go's append: in place while the capacity lasts, otherwise into a new array of some larger capacity. */
  method Append<T(0)>(s: Slice<T>, xs: seq<T>) returns (r: Slice<T>)
    requires s.Valid()
    modifies s.buf
    ensures r.Valid() && r.View() == old(s.View()) + xs
    ensures s.View() == old(s.View())
    ensures if s.len + |xs| <= s.buf.Length then r.buf == s.buf else fresh(r.buf) && s.buf[..] == old(s.buf[..])
  {
    var n := s.len + |xs|;
    if n <= s.buf.Length {
      r := Slice(s.buf, n);
    } else {
      var capacity: nat :| capacity >= n;
      var buf := new T[capacity];
      for i := 0 to s.len
        invariant forall k :: 0 <= k < i ==> buf[k] == s.buf[k]
        invariant s.buf[..] == old(s.buf[..])
      {
        buf[i] := s.buf[i];
      }
      r := Slice(buf, n);
    }
    for i := 0 to |xs|
      invariant forall k :: 0 <= k < s.len ==> r.buf[k] == old(s.buf[k])
      invariant forall k :: 0 <= k < i ==> r.buf[s.len + k] == xs[k]
      invariant forall k :: 0 <= k < s.len ==> s.buf[k] == old(s.buf[k])
      invariant r.buf != s.buf ==> s.buf[..] == old(s.buf[..])
    {
      r.buf[s.len + i] := xs[i];
    }
    assert r.View() == old(s.View()) + xs;
  }

  /** What each container adds to the user's environment; the install and compile containers add two fixed
      entries and then those of their image. */
  datatype Additions = Additions(install: seq<EnvVar>, installImage: seq<EnvVar>,
                                 compile: seq<EnvVar>, compileImage: seq<EnvVar>,
                                 handler: seq<EnvVar>, port: seq<EnvVar>, volume: seq<EnvVar>, runtimeImage: seq<EnvVar>)

  /** The env appends of one deployment, in the order of the source. DeepCopy leaves the user's env no spare
      capacity; with less than two spare slots every container ends up with the user's env followed by its own
      entries, and none overwrites another's. */
  method ContainerEnvs(env: Slice<EnvVar>, a: Additions)
    returns (install: Slice<EnvVar>, compile: Slice<EnvVar>, runtime: Slice<EnvVar>)
    requires env.Valid() && env.buf.Length < env.len + 2
    requires |a.install| == 2 && |a.compile| == 2
    modifies env.buf
    ensures install.Valid() && compile.Valid() && runtime.Valid()
    ensures env.View() == old(env.View())
    ensures install.View() == old(env.View()) + a.install + a.installImage
    ensures compile.View() == old(env.View()) + a.compile + a.compileImage
    ensures runtime.View() == old(env.View()) + a.handler + a.port + a.volume + a.runtimeImage
  {
    install := PhaseEnv(env, a.install, a.installImage);
    compile := PhaseEnv(env, a.compile, a.compileImage);
    runtime := HandlerEnv(env, a);
  }

  /** Appending to a slice that grew out of another keeps the other's entries. */
  method AppendKeeping<T(0)>(base: Slice<T>, s: Slice<T>, xs: seq<T>) returns (r: Slice<T>)
    requires base.Valid() && s.Valid() && base.len <= s.len
    modifies s.buf
    ensures r.Valid() && r.View() == old(s.View()) + xs && base.View() == old(base.View())
    ensures r.buf == s.buf || fresh(r.buf)
  {
    r := Append(s, xs);
    assert s.buf == base.buf ==> base.View() == s.View()[..base.len];
    assert s.buf == base.buf ==> old(base.View()) == old(s.View())[..base.len];
  }

  /** The env of an install or compile container: two fixed entries do not fit, so the slice moves away. */
  method PhaseEnv(env: Slice<EnvVar>, fixed: seq<EnvVar>, image: seq<EnvVar>) returns (r: Slice<EnvVar>)
    requires env.Valid() && env.buf.Length < env.len + 2 && |fixed| == 2
    modifies env.buf
    ensures fresh(r.buf) && r.Valid() && r.View() == old(env.View()) + fixed + image
    ensures env.buf[..] == old(env.buf[..])
  {
    r := Append(env, fixed);
    r := Append(r, image);
  }

  /** The env of the runtime container. */
  method HandlerEnv(env: Slice<EnvVar>, a: Additions) returns (r: Slice<EnvVar>)
    requires env.Valid()
    modifies env.buf
    ensures r.Valid() && env.View() == old(env.View())
    ensures r.View() == old(env.View()) + a.handler + a.port + a.volume + a.runtimeImage
  {
    r := AppendKeeping(env, env, a.handler);
    r := AppendKeeping(env, r, a.port);
    r := AppendKeeping(env, r, a.volume);
    r := AppendKeeping(env, r, a.runtimeImage);
  }

  /** With two or more spare slots the compile container's fixed entries replace the install container's: the
      capacity condition above is exact. */
  method SpareCapacityClobbers(env: Slice<EnvVar>, a: Additions)
    returns (install: Slice<EnvVar>, compile: Slice<EnvVar>)
    requires env.Valid() && env.buf.Length >= env.len + 2
    requires |a.install| == 2 && |a.compile| == 2
    modifies env.buf
    ensures install.Valid() && install.View() == old(env.View()) + a.compile
    ensures compile.Valid() && compile.View() == old(env.View()) + a.compile
  {
    install := Append(env, a.install);
    compile := Append(env, a.compile);
  }

  /** GetSecretsAsLocalObjectReference */
  function NonEmptyNames(names: seq<string>): (r: seq<string>) {
    if names == [] then []
    else NonEmptyNames(names[..|names| - 1]) + (if names[|names| - 1] != "" then [names[|names| - 1]] else [])
  }

  method SecretReferences(names: seq<string>) returns (r: Slice<string>)
    ensures fresh(r.buf) && r.Valid() && r.View() == NonEmptyNames(names)
  {
    var buf := new string[0];
    r := Slice(buf, 0);
    for i := 0 to |names|
      invariant fresh(r.buf) && r.Valid() && r.View() == NonEmptyNames(names[..i])
    {
      assert names[..i + 1][..i] == names[..i];
      if names[i] != "" {
        r := Append(r, [names[i]]);
      }
    }
    assert names[..|names|] == names;
  }

  /** The controller hands its own pull-secret slice to every function, and each appends its runtime's secrets
      to it, possibly in the controller's spare capacity. What is sent for a function is the controller's list
      and its own secrets, and the controller's list reads the same after any number of functions. */
  method ServeFunctions(controller: Slice<string>, secrets: seq<seq<string>>) returns (sent: seq<seq<string>>)
    requires controller.Valid()
    modifies controller.buf
    ensures controller.View() == old(controller.View())
    ensures |sent| == |secrets|
    ensures forall i :: 0 <= i < |secrets| ==> sent[i] == old(controller.View()) + secrets[i]
  {
    sent := [];
    for i := 0 to |secrets|
      invariant controller.View() == old(controller.View())
      invariant |sent| == i
      invariant forall k :: 0 <= k < i ==> sent[k] == old(controller.View()) + secrets[k]
    {
      var pod := Append(controller, secrets[i]);
      sent := sent + [pod.buf[..pod.len]];
    }
  }
}
