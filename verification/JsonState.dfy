/** `shared/storage/json_state.py`: JSON documents saved through a temporary file and a rename. */
module JsonState {
  import opened PyText

  /** A target file, or the n-th temporary file made beside it. */
  datatype Path = Named(name: string) | Temp(serial: nat)

  /** A file holds a whole document or a text cut off in the middle of a write. */
  datatype Content<D> = Torn | Whole(doc: D)

  type Files<D> = map<Path, Content<D>>

  /** `load_json_file`: the default for a missing file, a failure for one that does not parse. */
  function LoadJsonFile<D>(files: Files<D>, name: string, default: D): Option<D> {
    if Named(name) !in files then Some(default)
    else
      match files[Named(name)]
      case Torn => None
      case Whole(doc) => Some(doc)
  }

  /** The states a save leaves on disk one after another; a process may stop after any of them. */
  function SaveStates<D>(files: Files<D>, name: string, serial: nat, doc: D): (states: seq<Files<D>>)
    ensures |states| == 3
  {
    [files[Temp(serial) := Torn], files[Temp(serial) := Whole(doc)], files[Named(name) := Whole(doc)]]
  }

  /** Before its rename a save changes no named file; the rename replaces the target at once. */
  lemma SaveIsAtomic<D>(files: Files<D>, name: string, serial: nat, doc: D, other: string, default: D, i: nat)
    requires i < 3
    ensures var state := SaveStates(files, name, serial, doc)[i];
            LoadJsonFile(state, other, default) ==
            if other == name && i == 2 then Some(doc) else LoadJsonFile(files, other, default)
  {
  }

  class FileSystem<D> {
    var files: Files<D>
    var nextSerial: nat
    /** Every state of the disk so far, the present one last. */
    ghost var trace: seq<Files<D>>

    ghost predicate Valid()
      reads this
    {
      && trace != [] && trace[|trace| - 1] == files
      && forall n: nat :: Temp(n) in files ==> n < nextSerial
    }

    /** A disk as some earlier process, perhaps stopped in the middle of a save, left it. */
    constructor (files: Files<D>, nextSerial: nat)
      requires forall n: nat :: Temp(n) in files ==> n < nextSerial
      ensures Valid() && this.files == files && trace == [files]
    {
      this.files, this.nextSerial, trace := files, nextSerial, [files];
    }

    method SaveJsonFile(name: string, doc: D)
      requires Valid()
      modifies this
      ensures Valid() && files == old(files)[Named(name) := Whole(doc)]
      ensures nextSerial == old(nextSerial) + 1
      ensures trace == old(trace) + SaveStates(old(files), name, old(nextSerial), doc)
    {
      var temp := Temp(nextSerial);
      nextSerial := nextSerial + 1;
      files := files[temp := Torn];
      trace := trace + [files];
      files := files[temp := Whole(doc)];
      assert files == old(files)[temp := Whole(doc)];
      trace := trace + [files];
      files := files[Named(name) := files[temp]] - {temp};
      assert files == old(files)[Named(name) := Whole(doc)];
      trace := trace + [files];
      ghost var states := SaveStates(old(files), name, old(nextSerial), doc);
      assert trace == old(trace) + [states[0]] + [states[1]] + [states[2]];
    }
  }
}
