/** createShader's retry policy: when compiling or linking fails, drop one
    shader level and try again, down to level 0. */
module LevelFallback {
  import opened UniformTables

  /** What the driver and the shader manager answer during one try of
      createShader: the program handle glCreateProgramObjectARB returns, the
      handle loadShaderFile returns for each shader file, whether
      attachShaderFeatures succeeds and the indexed-channel count it leaves,
      whether the link succeeds, the reserved and custom attribute locations,
      and the active uniforms. */
  datatype Attempt = Attempt(
    program: nat,
    fileHandles: seq<int>,
    featuresAttached: bool,
    indexedChannels: int,
    linked: bool,
    reservedAttribLocs: seq<int>,
    customAttribLocs: seq<int>,
    activeUniforms: seq<ActiveUniform>)

  /** Every shader file compiled (loadShaderFile returned a handle). */
  predicate FilesCompiled(a: Attempt)
  {
    forall i :: 0 <= i < |a.fileHandles| ==> a.fileHandles[i] > 0
  }

  /** A try succeeds when every file compiled and the program linked;
      mapUniforms itself never fails. */
  predicate Succeeds(a: Attempt)
  {
    FilesCompiled(a) && a.linked
  }

  /** The largest number of retries from `level`: the level itself, or none at level 0 or below. */
  function MaxRetries(level: int): nat
  {
    if level > 0 then level else 0
  }

  /** How a call of createShader ends: its result, the shader level it leaves,
      and the index of the last try it made (try j runs at the initial level minus j). */
  datatype Outcome = Outcome(ok: bool, level: int, last: nat)

  function Fallback(level: int, attempts: seq<Attempt>): (r: Outcome)
    requires |attempts| > MaxRetries(level)
    ensures r.last <= MaxRetries(level) && r.level == level - r.last
    decreases |attempts|
  {
    var a := attempts[0];
    if !a.featuresAttached then Outcome(false, level, 0)
    else if Succeeds(a) then Outcome(true, level, 0)
    else if level > 0 then
      var r := Fallback(level - 1, attempts[1..]);
      r.(last := r.last + 1)
    else Outcome(false, level, 0)
  }

  /** The retry policy in full: every try before the last attached its
      features and failed; the last one either succeeded, or failed to attach
      features (no retry), or failed at level 0 or below. */
  lemma {:induction false} FallbackCharacterised(level: int, attempts: seq<Attempt>)
    requires |attempts| > MaxRetries(level)
    ensures var r := Fallback(level, attempts);
            && (forall j :: 0 <= j < r.last ==> attempts[j].featuresAttached && !Succeeds(attempts[j]))
            && (r.ok <==> attempts[r.last].featuresAttached && Succeeds(attempts[r.last]))
            && (!r.ok && attempts[r.last].featuresAttached ==> r.level <= 0)
    decreases |attempts|
  {
    var a := attempts[0];
    if a.featuresAttached && !Succeeds(a) && level > 0 {
      FallbackCharacterised(level - 1, attempts[1..]);
      var r' := Fallback(level - 1, attempts[1..]);
      forall j | 1 <= j < r'.last + 1
        ensures attempts[j].featuresAttached && !Succeeds(attempts[j])
      {
        assert attempts[j] == attempts[1..][j - 1];
      }
    }
  }

  /** Some try up to `last` attached its features and compiled every file,
      so createShader went on to map the attributes. */
  predicate ReachedLink(attempts: seq<Attempt>, last: nat)
    requires last < |attempts|
  {
    exists j :: 0 <= j <= last && attempts[j].featuresAttached && FilesCompiled(attempts[j])
  }

  /** ReachedLink over the tries after the first is ReachedLink over the
      remaining sequence, one index lower. */
  lemma {:induction false} ReachedLinkStep(attempts: seq<Attempt>, last: nat)
    requires 0 < last < |attempts|
    ensures ReachedLink(attempts, last) <==>
              (attempts[0].featuresAttached && FilesCompiled(attempts[0])) || ReachedLink(attempts[1..], last - 1)
  {
    if ReachedLink(attempts, last) {
      var j :| 0 <= j <= last && attempts[j].featuresAttached && FilesCompiled(attempts[j]);
      if j > 0 {
        assert attempts[1..][j - 1] == attempts[j];
      }
    }
    if ReachedLink(attempts[1..], last - 1) {
      var j :| 0 <= j <= last - 1 && attempts[1..][j].featuresAttached && FilesCompiled(attempts[1..][j]);
      assert attempts[j + 1] == attempts[1..][j];
    }
  }

  /** A failure to attach the shader features ends createShader at once. */
  lemma FeaturesFailureIsFinal(level: int, attempts: seq<Attempt>)
    requires |attempts| > MaxRetries(level) && !attempts[0].featuresAttached
    ensures Fallback(level, attempts) == Outcome(false, level, 0)
  {
  }
}
