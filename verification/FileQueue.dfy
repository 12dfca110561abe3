/**
 The file-backed job queue: a message is a file, a claim is a rename to `.claimed`, an
 acknowledgement unlinks the file, and putting back is a rename to the pending name.
 */
module FileQueue {
  import opened Base

  /** The name of a file in the pending directory: its stem and whether the suffix is `.claimed`. */
  datatype FileName = FileName(stem: string, claimed: bool)

  type Directory = map<FileName, string>

  function Pending(stem: string): FileName {
    FileName(stem, false)
  }

  function Claimed(stem: string): FileName {
    FileName(stem, true)
  }

  /** `os.replace`: it silently overwrites the target; a missing source raises, here: changes nothing. */
  function Rename(dir: Directory, source: FileName, target: FileName): Directory {
    if source in dir then (dir - {source})[target := dir[source]] else dir
  }

  /** Where `nack` puts a message back: its old name, or a spare one if that is taken. */
  function NackTarget(dir: Directory, stem: string, spare: string): FileName {
    if Pending(stem) in dir then Pending(spare) else Pending(stem)
  }

  /**
   `published` is what was published, by stem. Each message is in exactly one place:
   pending, claimed or acknowledged, under its own stem and with its own content.
   */
  ghost predicate Partition(dir: Directory, published: map<string, string>, acked: set<string>) {
    && acked <= published.Keys
    && (forall name | name in dir :: name.stem in published && name.stem !in acked && dir[name] == published[name.stem])
    && (forall stem | stem in published && stem !in acked :: Pending(stem) in dir || Claimed(stem) in dir)
    && (forall stem | stem in published :: !(Pending(stem) in dir && Claimed(stem) in dir))
  }

  lemma PublishKeepsPartition(dir: Directory, published: map<string, string>, acked: set<string>, stem: string,
                              jobId: string)
    requires Partition(dir, published, acked) && stem !in published
    ensures Pending(stem) !in dir
    ensures Partition(dir[Pending(stem) := jobId], published[stem := jobId], acked)
  {
  }

  /** A claim never overwrites: under fresh stems no claimed file of the same stem can exist. */
  lemma ClaimKeepsPartition(dir: Directory, published: map<string, string>, acked: set<string>, stem: string)
    requires Partition(dir, published, acked) && Pending(stem) in dir
    ensures Claimed(stem) !in dir
    ensures Partition(Rename(dir, Pending(stem), Claimed(stem)), published, acked)
    ensures |Rename(dir, Pending(stem), Claimed(stem))| == |dir|
  {
    RenameSize(dir, Pending(stem), Claimed(stem));
  }

  lemma AckKeepsPartition(dir: Directory, published: map<string, string>, acked: set<string>, stem: string)
    requires Partition(dir, published, acked) && Claimed(stem) in dir
    ensures Partition(dir - {Claimed(stem)}, published, acked + {stem})
  {
  }

  /** Putting back never overwrites, whatever is in the directory. */
  lemma NackNeverOverwrites(dir: Directory, stem: string, spare: string)
    requires Pending(spare) !in dir
    ensures NackTarget(dir, stem, spare) !in dir
    ensures |Rename(dir, Claimed(stem), NackTarget(dir, stem, spare))| == |dir|
  {
    if Claimed(stem) in dir {
      RenameSize(dir, Claimed(stem), NackTarget(dir, stem, spare));
    }
  }

  lemma NackKeepsPartition(dir: Directory, published: map<string, string>, acked: set<string>, stem: string,
                           spare: string)
    requires Partition(dir, published, acked) && Claimed(stem) in dir
    ensures NackTarget(dir, stem, spare) == Pending(stem)
    ensures Partition(Rename(dir, Claimed(stem), Pending(stem)), published, acked)
  {
  }

  /** A rename to a free name keeps the number of files. */
  lemma RenameSize(dir: Directory, source: FileName, target: FileName)
    requires source in dir && target !in dir
    ensures |Rename(dir, source, target)| == |dir|
  {
    var after := Rename(dir, source, target);
    assert after.Keys == dir.Keys - {source} + {target};
    assert |dir.Keys - {source}| == |dir.Keys| - 1;
  }

  /**
   Fresh stems are needed: with a stem published twice, the second claim overwrites the
   first message while it is in flight, and one message is lost.
   */
  lemma ReusedStemLosesMessage(stem: string, a: string, b: string)
    ensures var first := Rename(map[Pending(stem) := a], Pending(stem), Claimed(stem));
            Rename(first[Pending(stem) := b], Pending(stem), Claimed(stem)) == map[Claimed(stem) := b]
  {
  }

  /** The name by which the pending files are sorted. */
  function NameOf(file: FileName): string {
    file.stem + if file.claimed then ".claimed" else ".json"
  }

  predicate IsLeast(path: FileName, files: set<FileName>) {
    forall other | other in files :: !Precedes(NameOf(other), NameOf(path))
  }

  lemma {:induction false} LeastExists(files: set<FileName>)
    requires files != {}
    ensures exists path :: path in files && IsLeast(path, files)
    decreases files
  {
    var path :| path in files;
    var rest := files - {path};
    if rest == {} {
      PrecedesIsTotal(NameOf(path), NameOf(path));
      assert files == {path};
      assert IsLeast(path, files);
    } else {
      LeastExists(rest);
      var least :| least in rest && IsLeast(least, rest);
      PrecedesIsTotal(NameOf(path), NameOf(least));
      PrecedesIsTotal(NameOf(path), NameOf(path));
      if Precedes(NameOf(path), NameOf(least)) {
        forall other | other in files ensures !Precedes(NameOf(other), NameOf(path)) {
          if Precedes(NameOf(other), NameOf(path)) {
            PrecedesIsTransitive(NameOf(other), NameOf(path), NameOf(least));
          }
        }
        assert IsLeast(path, files);
      } else {
        assert IsLeast(least, files);
      }
    }
  }

  /** Different pending files have different names, so the least one comes before all others. */
  lemma LeastPrecedes(path: FileName, rest: set<FileName>)
    requires IsLeast(path, rest) && !path.claimed && path !in rest
    ensures forall stem | Pending(stem) in rest :: Precedes(NameOf(path), NameOf(Pending(stem)))
  {
    forall stem | Pending(stem) in rest ensures Precedes(NameOf(path), NameOf(Pending(stem))) {
      var a, b := NameOf(path), NameOf(Pending(stem));
      assert path.stem == a[..|a| - 5] && stem == b[..|b| - 5];
      PrecedesIsTotal(a, b);
    }
  }

  class FileJobQueue {
    var dir: Directory
    ghost var published: map<string, string>
    ghost var acked: set<string>
    ghost var thefts: seq<string>  // the stems other consumers claimed while this one was receiving

    ghost predicate Valid()
      reads this
    {
      Partition(dir, published, acked)
    }

    constructor ()
      ensures Valid() && dir == map[] && published == map[] && acked == {}
    {
      dir, published, acked, thefts := map[], map[], {}, [];
    }

    /** `stem` is the job id with a fresh UUID: no earlier message has it. */
    method Publish(jobId: string, stem: string)
      requires Valid() && stem !in published
      modifies this
      ensures Valid() && dir == old(dir)[Pending(stem) := jobId] && Pending(stem) !in old(dir)
      ensures published == old(published)[stem := jobId] && acked == old(acked)
    {
      PublishKeepsPartition(dir, published, acked, stem, jobId);
      dir := dir[Pending(stem) := jobId];
      published := published[stem := jobId];
    }

    /** Another consumer may claim the file; the theft is noted. */
    method Race(stem: string)
      requires Valid() && Pending(stem) in dir
      modifies `dir, `thefts
      ensures Valid() && |dir| == |old(dir)|
      ensures || (thefts == old(thefts) && dir == old(dir))
              || (thefts == old(thefts) + [stem] && dir == Rename(old(dir), Pending(stem), Claimed(stem)))
    {
      ClaimKeepsPartition(dir, published, acked, stem);
      hide Partition;
      var taken: bool := *;
      if taken {
        dir := Rename(dir, Pending(stem), Claimed(stem));
        thefts := thefts + [stem];
      }
    }

    /** `os.replace`, which raises if the source is missing. */
    method Replace(source: FileName, target: FileName) returns (ok: bool)
      modifies `dir
      ensures ok == (source in old(dir)) && dir == Rename(old(dir), source, target)
    {
      ok := source in dir;
      dir := Rename(dir, source, target);
    }

    /** One try: either way the file is claimed, and unless it is stolen it is the caller's. */
    method TryClaim(stem: string) returns (ok: bool)
      requires Valid() && Pending(stem) in dir
      modifies `dir, `thefts
      ensures Valid() && |dir| == |old(dir)| && dir == Rename(old(dir), Pending(stem), Claimed(stem))
      ensures Claimed(stem) in dir && thefts == old(thefts) + if ok then [] else [stem]
    {
      hide Partition;
      ClaimKeepsPartition(dir, published, acked, stem);
      Race(stem);
      ok := Replace(Pending(stem), Claimed(stem));
    }

    /**
     The pending files, by name, until one is claimed. Another consumer may claim a
     listed file first; the rename then raises and the next file is tried. Apart from such
     thefts the delivered file is the only one touched, and it is the first by name of
     those that were pending and were not stolen; nothing is returned only if all were.
     */
    method Receive() returns (delivery: FileQueueDelivery?)
      requires Valid()
      modifies `dir, `thefts
      ensures Valid() && |dir| == |old(dir)| && old(thefts) <= thefts
      ensures Received(old(dir), dir, thefts[|old(thefts)|..],
                       if delivery == null then None else Some(delivery.stem))
      ensures delivery != null ==>
                && fresh(delivery) && delivery.queue == this && !delivery.done
                && Claimed(delivery.stem) !in old(dir) && Claimed(delivery.stem) in dir
                && delivery.message == published[delivery.stem]
    {
      hide Partition, Received, Trying, Rename, Precedes, NameOf, ClaimAll, IsLeast;
      var listed := set name | name in dir && !name.claimed;
      ghost var stolen: seq<string> := [];
      NothingTried(dir);
      while listed != {}
        invariant Valid() && |dir| == |old(dir)|
        invariant thefts == old(thefts) + stolen && Trying(old(dir), dir, stolen, listed)
        decreases listed
      {
        LeastExists(listed);
        var path :| path in listed && IsLeast(path, listed);
        TryNext(old(dir), dir, stolen, listed, path);
        listed := listed - {path};
        var ok := TryClaim(path.stem);
        if !ok {
          stolen := stolen + [path.stem];
          continue;
        }
        ClaimedBefore(old(dir), published, acked, path.stem);
        delivery := new FileQueueDelivery(this, path.stem, dir[Claimed(path.stem)]);
        ContentOf(dir, published, acked, path.stem);
        assert thefts[|old(thefts)|..] == stolen;
        return;
      }
      NothingLeft(old(dir), dir, stolen);
      assert thefts[|old(thefts)|..] == stolen;
      return null;
    }
  }

  /** The directory after the claims, one after another. */
  ghost function ClaimAll(dir: Directory, stems: seq<string>): Directory {
    if stems == [] then dir
    else
      var last := stems[|stems| - 1];
      Rename(ClaimAll(dir, stems[..|stems| - 1]), Pending(last), Claimed(last))
  }

  /**
   What one call leaves: the files of `stolen` are claimed by others and `taken` by the
   caller, every other file is as before, and `taken` is the first by name of the files
   that were pending and not stolen.
   */
  ghost predicate Received(before: Directory, after: Directory, stolen: seq<string>, taken: Option<string>) {
    && (forall stem | stem in stolen :: Pending(stem) in before)
    && after == ClaimAll(before, stolen + if taken.Some? then [taken.value] else [])
    && (forall name: FileName | name.stem !in stolen && Some(name.stem) != taken ::
          (name in after <==> name in before) && (name in after ==> after[name] == before[name]))
    && match taken
       case None => forall stem | Pending(stem) in before :: stem in stolen && Pending(stem) !in after
       case Some(stem) =>
         && Pending(stem) in before && stem !in stolen && Pending(stem) !in after
         && forall other | Pending(other) in before && other != stem && other !in stolen ::
              Precedes(NameOf(Pending(stem)), NameOf(Pending(other)))
  }

  /** All files tried so far were stolen; `listed` are the ones not tried yet. */
  ghost predicate Trying(before: Directory, dir: Directory, stolen: seq<string>, listed: set<FileName>) {
    && dir == ClaimAll(before, stolen)
    && (forall stem | stem in stolen :: Pending(stem) in before && Pending(stem) !in listed)
    && (forall name | name in listed :: !name.claimed && name in before)
    && (forall stem | Pending(stem) in before :: Pending(stem) in listed || stem in stolen)
  }

  lemma NothingTried(dir: Directory)
    ensures Trying(dir, dir, [], set name | name in dir && !name.claimed)
  {
  }

  lemma NothingLeft(before: Directory, dir: Directory, stolen: seq<string>)
    requires Trying(before, dir, stolen, {})
    ensures Received(before, dir, stolen, None)
  {
    ClaimsTouchOnly(before, stolen);
    assert stolen + [] == stolen;
    hide ClaimAll, Rename;
  }

  /** The next file is still pending; whoever claims it, the claim is one more. */
  lemma TryNext(before: Directory, dir: Directory, stolen: seq<string>, listed: set<FileName>, path: FileName)
    requires Trying(before, dir, stolen, listed) && path in listed && IsLeast(path, listed)
    ensures path == Pending(path.stem) && path in dir && path in before
    ensures Trying(before, Rename(dir, path, Claimed(path.stem)), stolen + [path.stem], listed - {path})
    ensures Received(before, Rename(dir, path, Claimed(path.stem)), stolen, Some(path.stem))
  {
    ClaimsTouchOnly(before, stolen);
    ClaimsTouchOnly(before, stolen + [path.stem]);
    ClaimOneMore(before, stolen, path.stem);
    hide ClaimAll, Rename, Precedes, NameOf;
    assert IsLeast(path, listed - {path});
    LeastPrecedes(path, listed - {path});
  }

  lemma ClaimOneMore(dir: Directory, stems: seq<string>, stem: string)
    ensures ClaimAll(dir, stems + [stem]) == Rename(ClaimAll(dir, stems), Pending(stem), Claimed(stem))
  {
    assert (stems + [stem])[..|stems|] == stems;
  }

  /** Claims leave the files of other stems as they are, and nothing they claim is pending. */
  lemma {:induction false} ClaimsTouchOnly(dir: Directory, stems: seq<string>)
    ensures var after := ClaimAll(dir, stems);
            && (forall name: FileName | name.stem !in stems ::
                  (name in after <==> name in dir) && (name in after ==> after[name] == dir[name]))
            && (forall stem | stem in stems :: Pending(stem) !in after)
    decreases |stems|
  {
    if stems != [] {
      var n := |stems| - 1;
      ClaimsTouchOnly(dir, stems[..n]);
      assert stems == stems[..n] + [stems[n]];
    }
  }

  lemma ClaimedBefore(dir: Directory, published: map<string, string>, acked: set<string>, stem: string)
    requires Partition(dir, published, acked) && Pending(stem) in dir
    ensures Claimed(stem) !in dir && stem in published && dir[Pending(stem)] == published[stem]
  {
  }

  lemma ContentOf(dir: Directory, published: map<string, string>, acked: set<string>, stem: string)
    requires Partition(dir, published, acked) && Claimed(stem) in dir
    ensures stem in published && dir[Claimed(stem)] == published[stem] && Pending(stem) !in dir
  {
  }

  class FileQueueDelivery {
    const queue: FileJobQueue
    const stem: string
    const message: string
    var done: bool

    constructor (queue: FileJobQueue, stem: string, message: string)
      ensures this.queue == queue && this.stem == stem && this.message == message && !done
    {
      this.queue, this.stem, this.message, done := queue, stem, message, false;
    }

    /** An open delivery holds its claimed file. */
    ghost predicate Valid()
      reads this, queue
    {
      queue.Valid() && (!done ==> Claimed(stem) in queue.dir)
    }

    method Ack()
      requires Valid()
      modifies this, queue`dir, queue`acked
      ensures Valid() && done
      ensures old(done) ==> queue.dir == old(queue.dir) && queue.acked == old(queue.acked)
      ensures !old(done) ==> queue.dir == old(queue.dir) - {Claimed(stem)} && queue.acked == old(queue.acked) + {stem}
    {
      if done {
        return;
      }
      AckKeepsPartition(queue.dir, queue.published, queue.acked, stem);
      queue.dir := queue.dir - {Claimed(stem)};
      queue.acked := queue.acked + {stem};
      done := true;
    }

    /** `spare` is the stem with a fresh UUID for the collision case. */
    method Nack(spare: string)
      requires Valid() && Pending(spare) !in queue.dir
      modifies this, queue`dir
      ensures Valid() && done && |queue.dir| == |old(queue.dir)|
      ensures old(done) ==> queue.dir == old(queue.dir)
      ensures !old(done) ==>
                  queue.dir == Rename(old(queue.dir), Claimed(stem), Pending(stem)) && Pending(stem) !in old(queue.dir)
    {
      if done {
        return;
      }
      var target := NackTarget(queue.dir, stem, spare);
      NackNeverOverwrites(queue.dir, stem, spare);
      NackKeepsPartition(queue.dir, queue.published, queue.acked, stem, spare);
      queue.dir := Rename(queue.dir, Claimed(stem), target);
      done := true;
    }
  }
}
