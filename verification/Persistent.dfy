/** `Persistent<T>`: one update as the code performs it under the writer lock. DurableStores
    interleaves its steps with other writers, readers and process death. */
module Persistent {
  import opened Wrappers
  import DurableStores

  datatype IoError = Refused | WriteFailed

  /** What one whole update makes of the value in memory and the file. */
  function Outcome<T(==), R>(value: T, file: Option<T>, change: T -> Result<(T, R), IoError>, writable: bool)
    : (r: Result<(T, R), IoError>)
    ensures r.Ok? ==> change(value) == r
    ensures r.Err? ==> change(value).Err? || !writable
  {
    match change(value)
    case Err(e) => Err(e)
    case Ok((next, result)) =>
      if (next == value && file.Some?) || writable then Ok((next, result)) else Err(WriteFailed)
  }

  class Store<T(==)> {
    var value: T
    var file: Option<T>

    constructor Load(onDisk: Option<T>, default: T)
      ensures file == onDisk && value == DurableStores.Loaded(default, onDisk)
    {
      file := onDisk;
      value := if onDisk.Some? then onDisk.value else default;
    }

    /** Clone, change, write, publish: on success memory and file hold the new value, on failure neither moved. */
    method Update<R>(change: T -> Result<(T, R), IoError>, writable: bool) returns (r: Result<R, IoError>)
      requires file.Some? ==> file.value == value
      modifies this
      ensures match Outcome(old(value), old(file), change, writable)
              case Ok((next, result)) => r == Ok(result) && value == next && file == Some(next)
              case Err(e) => r == Err(e) && value == old(value) && file == old(file)
    {
      var next := value;
      match change(next)
      case Err(e) => return Err(e);
      case Ok((changed, result)) =>
        next := changed;
        if !(next == value && file.Some?) {
          if !writable { return Err(WriteFailed); }
          file := Some(next);
        }
        value := next;
        r := Ok(result);
    }
  }

  /** What a writer of DurableStores does when nothing comes between its steps. */
  ghost function Uninterrupted<T(!new)>(seed: T, s: DurableStores.State<T>, k: nat, writable: bool): DurableStores.State<T>
    requires DurableStores.CanStep(s, DurableStores.Compute(k))
  {
    var computed := DurableStores.DoCompute(s, k);
    if computed.writers[k].stage.Refused? then computed
    else
      var written := DurableStores.DoWrite(computed, k, writable);
      if written.writers[k].stage.Refused? then written else DurableStores.Step(seed, written, DurableStores.Publish(k))
  }

  /** The update the class performs is the one DurableStores interleaves. */
  lemma UpdateIsUninterruptedWriter<T(!new), R>(
      seed: T, s: DurableStores.State<T>, k: nat, change: T -> Result<(T, R), IoError>, writable: bool)
    requires DurableStores.CanStep(s, DurableStores.Compute(k))
    requires s.file.Some? ==> s.file.value == s.mem
    requires s.writers[k].change(s.mem) == match change(s.mem) case Ok((next, _)) => Some(next) case Err(_) => None
    ensures var s' := Uninterrupted(seed, s, k, writable);
            && s'.lock.None? && k in s'.writers
            && match Outcome(s.mem, s.file, change, writable)
               case Ok((next, _)) => s'.mem == next && s'.file == Some(next) && s'.writers[k].stage.Acknowledged?
               case Err(_) => s'.mem == s.mem && s'.file == s.file && s'.writers[k].stage.Refused?
  {
  }
}
