/** Checkpoint receipts: hashes remembered by five stat values, kept truthful while hard
    links, renames and outside writers change the same inodes. */
module ReceiptCache {
  import opened Wrappers

  datatype Id = Id(dev: nat, ino: nat)

  datatype File = File(content: seq<int>, mtime: int, ctime: int)

  /** The five stat values that identify a state of an inode. */
  datatype Stat = Stat(id: Id, size: nat, mtime: int, ctime: int)

  /** SHA-256 as an injective digest. */
  datatype Digest = Sha256(content: seq<int>) | OtherText(text: string)

  /** A file name below a checkpoint directory. */
  datatype Path = Path(root: string, name: string)

  datatype Disk = Disk(inodes: map<Id, File>, names: map<Path, Id>)

  /** What the disk is at every moment; everyone's changes are in it, SparkRing's own links
      included. */
  datatype World = World(disk: nat -> Disk)

  function FileStat(id: Id, f: File): Stat {
    Stat(id, |f.content|, f.mtime, f.ctime)
  }

  function InodeAt(w: World, t: nat, id: Id): Option<File> {
    var d := w.disk(t);
    if id in d.inodes then Some(d.inodes[id]) else None
  }

  function IdAt(w: World, t: nat, p: Path): Option<Id> {
    var d := w.disk(t);
    if p in d.names && d.names[p] in d.inodes then Some(d.names[p]) else None
  }

  function FileAt(w: World, t: nat, p: Path): Option<File> {
    if IdAt(w, t, p).Some? then InodeAt(w, t, IdAt(w, t, p).value) else None
  }

  function StatAt(w: World, t: nat, p: Path): Option<Stat> {
    if FileAt(w, t, p).Some? then Some(FileStat(IdAt(w, t, p).value, FileAt(w, t, p).value)) else None
  }

  /** An inode that differs from a moment ago, in content or times, or has reappeared,
      carries a change time it never had before. */
  ghost predicate FreshChanges(w: World) {
    forall t: nat, id |
      InodeAt(w, t + 1, id).Some? && InodeAt(w, t + 1, id) != InodeAt(w, t, id) :: NewChangeTime(w, t, id)
  }

  ghost predicate NewChangeTime(w: World, t: nat, id: Id)
    requires InodeAt(w, t + 1, id).Some?
  {
    forall s: nat | s <= t && InodeAt(w, s, id).Some? ::
      InodeAt(w, s, id).value.ctime != InodeAt(w, t + 1, id).value.ctime
  }

  lemma FreshStep(w: World, id: Id, s: nat, t: nat)
    requires FreshChanges(w) && s <= t && InodeAt(w, s, id).Some? && InodeAt(w, t + 1, id).Some?
    ensures InodeAt(w, t + 1, id) == InodeAt(w, t, id) || InodeAt(w, t + 1, id).value.ctime != InodeAt(w, s, id).value.ctime
  {
    assert InodeAt(w, t + 1, id) != InodeAt(w, t, id) ==> NewChangeTime(w, t, id);
  }

  /** Equal change times mean that nothing happened to the inode in between. */
  lemma {:induction false} SameChangeTime(w: World, id: Id, s: nat, m: nat, t: nat)
    requires FreshChanges(w) && s <= m <= t
    requires InodeAt(w, s, id).Some? && InodeAt(w, t, id).Some?
    requires InodeAt(w, s, id).value.ctime == InodeAt(w, t, id).value.ctime
    ensures InodeAt(w, m, id) == InodeAt(w, t, id)
    decreases t - s
  {
    if s < t {
      FreshStep(w, id, s, t - 1);
      if m < t {
        SameChangeTime(w, id, s, m, t - 1);
      }
    }
  }

  // ---- receipts ----

  datatype Receipt = Receipt(revision: string, root: string, stats: map<string, Stat>, hashes: map<string, Digest>)

  /** At some moment until `now` an inode had exactly these stat values and this digest. */
  ghost predicate Witnessed(w: World, now: nat, s: Stat, h: Digest) {
    exists t: nat :: t <= now && InodeAt(w, t, s.id).Some?
                     && FileStat(s.id, InodeAt(w, t, s.id).value) == s
                     && h == Sha256(InodeAt(w, t, s.id).value.content)
  }

  ghost predicate Truthful(w: World, now: nat, r: Receipt) {
    forall n | n in r.stats && n in r.hashes :: Witnessed(w, now, r.stats[n], r.hashes[n])
  }

  ghost predicate Sound(w: World, now: nat, receipts: map<string, Receipt>) {
    forall at | at in receipts :: Truthful(w, now, receipts[at])
  }

  /** A truthful entry that matches a file's stat values gives the file's digest. */
  lemma WitnessedMeansHash(w: World, now: nat, s: Stat, h: Digest, t: nat, p: Path)
    requires FreshChanges(w) && Witnessed(w, now, s, h) && StatAt(w, t, p) == Some(s)
    ensures h == Sha256(FileAt(w, t, p).value.content)
  {
    WitnessedInode(w, now, s, h, t);
  }

  /** Receipts stay truthful for ever: wherever a name's five stat values equal its recorded
      ones, now or later, its content has the recorded hash. */
  lemma SoundMeansHash(w: World, now: nat, receipts: map<string, Receipt>, at: string, n: string, t: nat, p: Path)
    requires FreshChanges(w) && Sound(w, now, receipts) && at in receipts
    requires n in receipts[at].stats && n in receipts[at].hashes && StatAt(w, t, p) == Some(receipts[at].stats[n])
    ensures receipts[at].hashes[n] == Sha256(FileAt(w, t, p).value.content)
  {
    assert Truthful(w, now, receipts[at]);
    WitnessedMeansHash(w, now, receipts[at].stats[n], receipts[at].hashes[n], t, p);
  }

  lemma SoundLater(w: World, now: nat, later: nat, receipts: map<string, Receipt>)
    requires Sound(w, now, receipts) && now <= later
    ensures Sound(w, later, receipts)
  {
    forall at | at in receipts ensures Truthful(w, later, receipts[at]) {
      assert Truthful(w, now, receipts[at]);
      forall n | n in receipts[at].stats && n in receipts[at].hashes
        ensures Witnessed(w, later, receipts[at].stats[n], receipts[at].hashes[n])
      {
        assert Witnessed(w, now, receipts[at].stats[n], receipts[at].hashes[n]);
      }
    }
  }

  /** The inode is the same file throughout. */
  ghost predicate Stable(w: World, id: Id, f: File, from: nat, to: nat) {
    forall t: nat | from <= t < to :: InodeAt(w, t, id) == Some(f)
  }

  lemma StableBetween(w: World, p: Path, q: Path, s: Stat, t: nat, from: nat, to: nat, u: nat)
    requires FreshChanges(w) && t <= from && to <= u && t <= u
    requires StatAt(w, t, p) == Some(s) && StatAt(w, u, q) == Some(s)
    ensures Stable(w, s.id, FileAt(w, t, p).value, from, to)
  {
    InodeStable(w, s.id, t, from, to, u);
  }

  /** The names a verification has to hash again: unknown, or with other stat values. */
  function Changed(r: Receipt, current: map<string, Stat>): map<string, Stat> {
    map n | n in current && (n !in r.stats || r.stats[n] != current[n] || n !in r.hashes) :: current[n]
  }

  /** Digests and where they come from: each was the content's at the moment the name's
      stat values were read. */
  ghost predicate MeasuredAt(w: World, root: string, names: seq<string>, measured: map<string, Digest>,
                             current: map<string, Stat>, times: map<string, nat>) {
    forall n | n in names ::
      && n in measured && n in current && n in times
      && StatAt(w, times[n], Path(root, n)) == Some(current[n])
      && HoldsAt(w, times[n], Path(root, n), measured[n])
  }

  /** Nothing changes from `start` on. */
  ghost predicate Quiet(w: World, start: nat) {
    forall t: nat | t >= start :: w.disk(t) == w.disk(start)
  }

  /** From `from` on the inode keeps its content and modification time, and its change time
      changes at most once, as SparkRing's own link changes it. */
  ghost predicate Undisturbed(w: World, id: Id, from: nat) {
    InodeAt(w, from, id).Some? && exists u: nat, c :: OneChange(w, id, from, u, c)
  }

  ghost predicate OneChange(w: World, id: Id, from: nat, u: nat, c: int)
    requires InodeAt(w, from, id).Some?
  {
    var f := InodeAt(w, from, id).value;
    forall t: nat | t >= from :: InodeAt(w, t, id) == Some(if t < u then f else f.(ctime := c))
  }

  /** From `from` on the inode keeps its content, of this size. */
  ghost predicate Kept(w: World, id: Id, from: nat, size: nat) {
    && Sized(InodeAt(w, from, id), size)
    && forall t: nat | t >= from ::
         InodeAt(w, t, id).Some? && InodeAt(w, t, id).value.content == InodeAt(w, from, id).value.content
  }

  lemma KeptAt(w: World, id: Id, from: nat, size: nat, t: nat)
    requires from <= t
    ensures Kept(w, id, from, size) ==>
              && InodeAt(w, from, id).Some? && InodeAt(w, t, id).Some? && |InodeAt(w, from, id).value.content| == size
              && InodeAt(w, t, id).value.content == InodeAt(w, from, id).value.content
              && Kept(w, id, t, size)
  {
  }

  lemma StableAt(w: World, id: Id, from: nat, t: nat, to: nat)
    requires from <= t && to == t + 1
    ensures forall f | Stable(w, id, f, from, to) :: Stable(w, id, f, from, t) && InodeAt(w, t, id) == Some(f)
  {
  }

  /** A block read behind what was read keeps it a prefix of the content. */
  lemma Grows(data: seq<int>, content: seq<int>, end: nat)
    requires |data| <= end <= |content|
    ensures data <= content ==> data + content[|data|..end] <= content
  {
  }

  lemma Whole(data: seq<int>, content: seq<int>)
    requires |content| <= |data|
    ensures data <= content ==> data == content
  {
  }

  lemma QuietIsKept(w: World, id: Id, from: nat, size: nat)
    ensures Quiet(w, from) && Sized(InodeAt(w, from, id), size) ==> Kept(w, id, from, size)
  {
  }

  lemma UndisturbedKeeps(w: World, id: Id, from: nat)
    requires Undisturbed(w, id, from)
    ensures Kept(w, id, from, |InodeAt(w, from, id).value.content|)
    ensures forall t: nat | t >= from ::
              SameKey(FileStat(id, InodeAt(w, t, id).value), FileStat(id, InodeAt(w, from, id).value))
    ensures forall s: nat, t: nat | from <= s <= t && InodeAt(w, s, id) != InodeAt(w, from, id) ::
              InodeAt(w, t, id) == InodeAt(w, s, id)
  {
    var u: nat, c :| OneChange(w, id, from, u, c);
  }

  predicate HoldsAt(w: World, t: nat, p: Path, h: Digest) {
    FileAt(w, t, p).Some? && Sha256(FileAt(w, t, p).value.content) == h
  }

  predicate Sized(f: Option<File>, size: nat) {
    f.Some? && |f.value.content| == size
  }

  /** Between two moments, writes that changed this inode's content changed its size or
      modification time too. */
  ghost predicate HonestWithin(w: World, id: Id, from: nat, to: nat) {
    forall s: nat, t: nat | from <= s <= t <= to && InodeAt(w, s, id).Some? && InodeAt(w, t, id).Some?
                            && SameKey(FileStat(id, InodeAt(w, s, id).value), FileStat(id, InodeAt(w, t, id).value)) ::
      InodeAt(w, s, id).value.content == InodeAt(w, t, id).value.content
  }

  /** The values a link leaves alone. */
  predicate SameKey(a: Stat, b: Stat) {
    a.(ctime := b.ctime) == b
  }

  /** One inode that SparkRing hashed and linked: its stat values before hashing and right
      after the link. */
  datatype Linked = Linked(sha256: Digest, before: Stat, after: Stat)

  /** Does this entry of a receipt record the linked inode as it was before the link? */
  predicate Records(r: Receipt, n: string, item: Linked) {
    && n in r.stats && n in r.hashes
    && r.stats[n].id == item.before.id && r.hashes[n] == item.sha256
    && r.stats[n].size == item.before.size && r.stats[n].mtime == item.before.mtime
  }

  /** The inode is as measured at the first look, and its size and modification time are
      the same right after the link. */
  predicate KeepsKey(w: World, id: Id, before: Stat, t: nat) {
    && InodeAt(w, t, id).Some? && FileStat(id, InodeAt(w, t, id).value) == before
    && InodeAt(w, t + 2, id).Some? && SameKey(FileStat(id, InodeAt(w, t + 2, id).value), before)
  }

  /** What the placement journal records of one file: its stat values right after it was
      placed, and its hash. */
  datatype Placement = Placement(stats: Stat, sha256: Digest)

  /** Each journalled placement's stat values stand for its hash. */
  ghost predicate Journalled(w: World, now: nat, journal: map<Path, Placement>) {
    forall p | p in journal :: Witnessed(w, now, journal[p].stats, journal[p].sha256)
  }

  /** The file is journalled under its pin and has the journalled stat values. */
  predicate InPlace(w: World, t: nat, p: Path, pin: Digest, journal: map<Path, Placement>) {
    p in journal && journal[p].sha256 == pin && StatAt(w, t, p) == Some(journal[p].stats)
  }

  /** Each name's content was the pinned one at some moment of the call. */
  ghost predicate ProvedPins(w: World, root: string, pins: map<string, Digest>, from: nat, to: nat) {
    forall n | n in pins :: exists t: nat :: from <= t < to && HoldsAt(w, t, Path(root, n), pins[n])
  }

  function Placed(root: string, pins: map<string, Digest>, journal: map<Path, Placement>): map<string, Stat> {
    map n | n in pins && Path(root, n) in journal :: journal[Path(root, n)].stats
  }

  lemma WitnessedLater(w: World, now: nat, later: nat, s: Stat, h: Digest)
    requires Witnessed(w, now, s, h) && now <= later
    ensures Witnessed(w, later, s, h)
  {
  }

  lemma JournalledLater(w: World, now: nat, later: nat, journal: map<Path, Placement>)
    requires Journalled(w, now, journal) && now <= later
    ensures Journalled(w, later, journal)
  {
    hide Witnessed;
    forall p | p in journal ensures Witnessed(w, later, journal[p].stats, journal[p].sha256) {
      WitnessedLater(w, now, later, journal[p].stats, journal[p].sha256);
    }
  }

  lemma QuietPlace(w: World, start: nat, t: nat, p: Path, pin: Digest, journal: map<Path, Placement>)
    requires start <= t
    ensures Quiet(w, start) ==> (InPlace(w, t, p, pin, journal) <==> InPlace(w, start, p, pin, journal))
  {
    QuietLater(w, start, t);
  }

  lemma PlacedProved(w: World, root: string, pins: map<string, Digest>, journal: map<Path, Placement>,
                     times: map<string, nat>, start: nat, to: nat)
    requires FreshChanges(w) && Journalled(w, start, journal) && pins.Keys <= times.Keys
    requires forall n | n in pins :: start <= times[n] < to && InPlace(w, times[n], Path(root, n), pins[n], journal)
    ensures ProvedPins(w, root, pins, start, to)
  {
    hide FreshChanges, Witnessed;
    forall n | n in pins ensures start <= times[n] < to && HoldsAt(w, times[n], Path(root, n), pins[n]) {
      var p := Path(root, n);
      assert InPlace(w, times[n], p, pins[n], journal);
      WitnessedMeansHash(w, start, journal[p].stats, journal[p].sha256, times[n], p);
    }
  }

  lemma AllJournalled(root: string, pins: map<string, Digest>, journal: map<Path, Placement>, w: World, times: map<string, nat>)
    requires pins.Keys <= times.Keys
    requires forall n | n in pins :: InPlace(w, times[n], Path(root, n), pins[n], journal)
    ensures forall n | n in pins :: Path(root, n) in journal && journal[Path(root, n)].sha256 == pins[n]
  {
  }

  lemma PlacedNeedsNone(w: World, t: nat, r: Receipt, journal: map<Path, Placement>)
    requires r.stats == Placed(r.root, r.hashes, journal)
    requires forall n | n in r.hashes :: InPlace(w, t, Path(r.root, n), r.hashes[n], journal)
    ensures NeedsNone(w, t, r, r.hashes.Keys)
  {
    forall n | n in r.hashes ensures n in r.stats && StatAt(w, t, Path(r.root, n)) == Some(r.stats[n]) {
      assert InPlace(w, t, Path(r.root, n), r.hashes[n], journal);
    }
  }

  lemma FinishedSound(w: World, receipts: map<string, Receipt>, at: string, record: string, r: Receipt,
                      journal: map<Path, Placement>, start: nat, now: nat)
    requires Sound(w, start, receipts) && Journalled(w, start, journal) && start <= now
    requires r.stats == Placed(r.root, r.hashes, journal)
    requires forall n | n in r.hashes :: Path(r.root, n) in journal && journal[Path(r.root, n)].sha256 == r.hashes[n]
    ensures Sound(w, now, receipts[at := r][record := r])
  {
    hide Witnessed;
    JournalledLater(w, start, now, journal);
    SoundLater(w, start, now, receipts);
    forall n | n in r.stats && n in r.hashes ensures Witnessed(w, now, r.stats[n], r.hashes[n]) {
      assert Path(r.root, n) in journal;
    }
    assert Truthful(w, now, r);
  }

  const BLOCK := 16 * 1024 * 1024

  class Installer {
    const world: World
    var receipts: map<string, Receipt>  // every receipt and path record on this host
    var clock: nat

    ghost predicate Valid()
      reads this
    {
      FreshChanges(world) && Sound(world, clock, receipts)
    }

    constructor (world: World, now: nat)
      requires FreshChanges(world)
      ensures this.world == world && Valid() && receipts == map[] && clock == now
    {
      this.world := world;
      receipts := map[];
      clock := now;
    }

    /** The stat values of each name; every look takes its own moment. */
    method StatFiles(root: string, names: seq<string>)
      returns (stats: Option<map<string, Stat>>, ghost times: map<string, nat>)
      modifies `clock
      ensures clock >= old(clock)
      ensures stats.Some? ==> LookedAt(world, root, names, stats.value, times, old(clock), clock)
      ensures stats.None? ==> exists n, t: nat :: n in names && t >= old(clock) && StatAt(world, t, Path(root, n)).None?
    {
      var found: map<string, Stat> := map[];
      times := map[];
      for i := 0 to |names|
        invariant clock >= old(clock)
        invariant LookedAt(world, root, names[..i], found, times, old(clock), clock)
      {
        var s := StatAt(world, clock, Path(root, names[i]));
        if s.None? {
          assert names[i] in names;
          return None, times;
        }
        found := found[names[i] := s.value];
        times := times[names[i] := clock];
        clock := clock + 1;
        assert names[..i + 1] == names[..i] + [names[i]];
      }
      assert names[..|names|] == names;
      return Some(found), times;
    }

    /** Hash exactly `size` bytes of an inode held open. Blocks are read one after the other,
        each at its own moment. */
    method HashDescriptor(id: Id, size: nat) returns (h: Option<Digest>)
      modifies `clock
      ensures clock > old(clock)
      ensures h.Some? ==> forall f | Stable(world, id, f, old(clock), clock) :: h.value == Sha256(f.content)
      ensures Quiet(world, old(clock)) && Sized(InodeAt(world, old(clock), id), size) ==> h.Some?
      ensures Kept(world, id, old(clock), size) ==> h == Some(Sha256(InodeAt(world, old(clock), id).value.content))
    {
      hide Kept, Quiet, Stable;
      ghost var start := clock;
      var data: seq<int> := [];
      QuietIsKept(world, id, start, size);
      KeptAt(world, id, start, size, start);
      while |data| < size
        invariant |data| <= size && clock >= start
        invariant Kept(world, id, start, size) ==> InodeAt(world, start, id).Some? && data <= InodeAt(world, start, id).value.content
        invariant forall f | Stable(world, id, f, start, clock) :: data <= f.content
        decreases size - |data|
      {
        var f := InodeAt(world, clock, id);
        KeptAt(world, id, start, size, clock);
        clock := clock + 1;
        StableAt(world, id, start, clock - 1, clock);
        if f.None? || |f.value.content| <= |data| {
          return None;
        }
        var end := if |data| + BLOCK < size then |data| + BLOCK else size;
        end := if end < |f.value.content| then end else |f.value.content|;
        Grows(data, f.value.content, end);
        data := data + f.value.content[|data|..end];
      }
      var f := InodeAt(world, clock, id);
      KeptAt(world, id, start, size, clock);
      clock := clock + 1;
      StableAt(world, id, start, clock - 1, clock);
      if f.None? || |f.value.content| > size {
        return None;
      }
      Whole(data, f.value.content);
      return Some(Sha256(data));
    }

    /** Hash one file through a descriptor whose identity, size and modification time equal
        the recorded ones. */
    method HashFile(root: string, name: string, recorded: Stat) returns (h: Option<Digest>)
      modifies `clock
      ensures clock > old(clock)
      ensures h.Some? ==>
                forall f | Stable(world, recorded.id, f, old(clock), clock) :: h.value == Sha256(f.content)
      ensures Quiet(world, old(clock)) && StatAt(world, old(clock), Path(root, name)) == Some(recorded) ==> h.Some?
      ensures h.Some? ==>
                var found := StatAt(world, old(clock), Path(root, name));
                found.Some? && found.value.id == recorded.id && found.value.size == recorded.size && found.value.mtime == recorded.mtime
    {
      ghost var start := clock;
      var found := StatAt(world, clock, Path(root, name));
      clock := clock + 1;
      if found.None? || found.value.(ctime := recorded.ctime) != recorded {
        return None;
      }
      QuietLater(world, start, clock);
      h := HashDescriptor(recorded.id, recorded.size);
      forall f | Stable(world, recorded.id, f, start, clock) ensures Stable(world, recorded.id, f, start + 1, clock) {
      }
    }

    /** Hash every changed name. */
    method HashFiles(root: string, names: seq<string>, changed: map<string, Stat>)
      returns (digests: Option<map<string, Digest>>)
      requires forall n | n in changed :: n in names
      modifies `clock
      ensures clock >= old(clock)
      ensures digests.Some? ==> digests.value.Keys == changed.Keys
      ensures digests.Some? ==> forall n, f | n in changed && Stable(world, changed[n].id, f, old(clock), clock) ::
                digests.value[n] == Sha256(f.content)
      ensures Quiet(world, old(clock)) && (forall n | n in changed :: StatAt(world, old(clock), Path(root, n)) == Some(changed[n])) ==>
                digests.Some?
    {
      var found: map<string, Digest> := map[];
      for i := 0 to |names|
        invariant clock >= old(clock)
        invariant found.Keys == set n | n in names[..i] && n in changed
        invariant forall n, f | n in found && Stable(world, changed[n].id, f, old(clock), clock) :: found[n] == Sha256(f.content)
      {
        assert names[..i + 1] == names[..i] + [names[i]];
        ghost var before := clock;
        if names[i] in changed {
          var h := HashFile(root, names[i], changed[names[i]]);
          if h.None? {
            return None;
          }
          forall f | Stable(world, changed[names[i]].id, f, old(clock), clock) ensures h.value == Sha256(f.content) {
            assert Stable(world, changed[names[i]].id, f, before, clock);
          }
          forall n, f | n in found && Stable(world, changed[n].id, f, old(clock), clock) ensures found[n] == Sha256(f.content) {
            assert Stable(world, changed[n].id, f, old(clock), before);
          }
          found := found[names[i] := h.value];
        }
      }
      assert names[..|names|] == names;
      return Some(found);
    }

    /** Hash the changed names and look again at their stat values. */
    method Rehash(root: string, names: seq<string>, current: map<string, Stat>, changed: map<string, Stat>,
                  ghost times: map<string, nat>, ghost start: nat)
      returns (digests: Option<map<string, Digest>>)
      requires FreshChanges(world) && start <= clock && LookedAt(world, root, names, current, times, start, clock)
      requires forall n | n in changed :: n in current && current[n] == changed[n]
      modifies `clock
      ensures clock >= old(clock)
      ensures digests.Some? ==> digests.value.Keys == changed.Keys
      ensures digests.Some? ==> forall n | n in changed :: HoldsAt(world, times[n], Path(root, n), digests.value[n])
      ensures Quiet(world, start) ==> digests.Some?
    {
      ghost var before := clock;
      QuietStats(world, root, names, current, times, start, clock);
      QuietLater(world, start, clock);
      digests := HashFiles(root, names, changed);
      if digests.None? {
        return;
      }
      ghost var hashed := clock;
      QuietLater(world, start, clock);
      var after, afterTimes := StatFiles(root, names);
      if after.None? {
        return None;
      }
      QuietStats(world, root, names, after.value, afterTimes, start, clock);
      if exists n | n in changed :: after.value[n] != changed[n] {
        return None;
      }
      forall n | n in changed ensures HoldsAt(world, times[n], Path(root, n), digests.value[n]) {
        StableBetween(world, Path(root, n), Path(root, n), changed[n], times[n], before, hashed, afterTimes[n]);
      }
    }

    /** The digest of every name, hashing only where the receipt cannot answer. */
    method Measure(root: string, names: seq<string>, r: Receipt)
      returns (measured: Option<map<string, Digest>>, current: map<string, Stat>, ghost times: map<string, nat>)
      requires FreshChanges(world) && Truthful(world, clock, r)
      modifies `clock
      ensures clock >= old(clock)
      ensures measured.Some? ==> LookedAt(world, root, names, current, times, old(clock), clock)
      ensures measured.Some? ==> MeasuredAt(world, root, names, measured.value, current, times)
      ensures Quiet(world, old(clock)) ==>
                (measured.Some? <==> forall n | n in names :: StatAt(world, old(clock), Path(root, n)).Some?)
    {
      var stats;
      ghost var start := clock;
      stats, times := StatFiles(root, names);
      if stats.None? {
        return None, map[], times;
      }
      current := stats.value;
      QuietStats(world, root, names, current, times, start, clock);
      var changed := Changed(r, current);
      var anew := Some(map[]);
      ghost var looked := clock;
      if changed != map[] {
        anew := Rehash(root, names, current, changed, times, start);
        if anew.None? {
          return None, current, times;
        }
      }
      measured := Some(map n | n in current :: if n in changed then anew.value[n] else r.hashes[n]);
      forall n | n in names ensures HoldsAt(world, times[n], Path(root, n), measured.value[n]) {
        if n !in changed {
          WitnessedMeansHash(world, start, current[n], r.hashes[n], times[n], Path(root, n));
        }
      }
    }

    /** Compare every required name with the receipt's hashes and the pins. */
    method CheckNames(root: string, names: seq<string>, r: Receipt, pins: map<string, Digest>)
      returns (accepted: bool, current: map<string, Stat>, ghost measured: map<string, Digest>, ghost times: map<string, nat>)
      requires FreshChanges(world) && Truthful(world, clock, r) && forall n | n in names :: n in pins
      modifies `clock
      ensures clock >= old(clock)
      ensures accepted ==> LookedAt(world, root, names, current, times, old(clock), clock)
      ensures accepted ==> MeasuredAt(world, root, names, measured, current, times)
      ensures accepted ==> forall n | n in names :: n in r.hashes && r.hashes[n] == measured[n] == pins[n]
      ensures Quiet(world, old(clock)) ==> (accepted <==> AllMatch(world, old(clock), root, names, r, pins))
    {
      ghost var start := clock;
      var digests;
      digests, current, times := Measure(root, names, r);
      if digests.None? {
        return false, current, map[], times;
      }
      measured := digests.value;
      QuietMeasured(world, root, names, measured, current, times, start, clock);
      accepted := forall n | n in names :: n in r.hashes && r.hashes[n] == digests.value[n] && digests.value[n] == pins[n];
    }

    /** Check a checkpoint directory against its receipt and pins. An accepted call returns a
        receipt with each required name's stat values as read, and the name's content was the
        pinned one at that very reading; with a quiet disk it accepts exactly what hashing
        everything would. `record` is the path record kept beside the receipt. */
    method VerifyModel(at: string, record: string, revision: string, root: string, names: seq<string>,
                       pins: map<string, Digest>, refresh: bool) returns (checked: Option<Receipt>)
      requires Valid() && forall n | n in names :: n in pins
      modifies this
      ensures Valid() && clock >= old(clock)
      ensures checked.Some? ==> ProvedAtReading(world, checked.value, root, names, pins, old(clock), clock)
      ensures checked.Some? ==> at in old(receipts) && checked.value == old(receipts)[at].(stats := checked.value.stats)
      ensures Quiet(world, old(clock)) ==>
                (checked.Some? <==>
                  && at in old(receipts) && old(receipts)[at].revision == revision && old(receipts)[at].root == root
                  && AllMatch(world, old(clock), root, names, old(receipts)[at], pins))
      ensures checked.Some? ==> forall n | n in old(receipts)[at].stats && n !in names ::
                n in checked.value.stats && checked.value.stats[n] == old(receipts)[at].stats[n]
      ensures checked.Some? && refresh && checked.value != old(receipts)[at] ==>
                receipts == old(receipts)[at := checked.value][record := checked.value]
      ensures !(checked.Some? && refresh && checked.value != old(receipts)[at]) ==> receipts == old(receipts)
      ensures checked.Some? && Quiet(world, old(clock)) ==> NeedsNone(world, clock, checked.value, set n | n in names)
    {
      hide ProvedAtReading, AllMatch, Changed, Truthful, LookedAt, MeasuredAt, FreshChanges, Quiet, NeedsNone;
      if at !in receipts || receipts[at].revision != revision || receipts[at].root != root {
        return None;
      }
      var r := receipts[at];
      ghost var start := clock;
      var accepted, current;
      ghost var measured, times;
      accepted, current, measured, times := CheckNames(root, names, r, pins);
      SoundLater(world, start, clock, receipts);
      if !accepted {
        return None;
      }
      ReadingProved(world, root, names, pins, r, measured, current, times, start, clock);
      RenewedTruthful(world, root, names, r, measured, current, times, start, clock);
      RenewedKeeps(world, root, names, r, current, times, start, clock);
      if refresh {
        KeepRenewed(at, record, r, current);
      }
      return Some(Renewed(r, current));
    }

    /** Save the renewed receipt and its path record, if anything was hashed again. */
    method KeepRenewed(at: string, record: string, r: Receipt, current: map<string, Stat>)
      requires Valid() && at in receipts && receipts[at] == r && Truthful(world, clock, Renewed(r, current))
      requires forall n | n in current :: n in r.hashes
      modifies `receipts
      ensures Valid()
      ensures Renewed(r, current) != r ==> receipts == old(receipts)[at := Renewed(r, current)][record := Renewed(r, current)]
      ensures Renewed(r, current) == r ==> receipts == old(receipts)
    {
      hide Truthful, FreshChanges, Renewed;
      if Changed(r, current) != map[] {
        ChangedIsRenewed(r, current);
        var renewed := Renewed(r, current);
        receipts := receipts[at := renewed][record := renewed];
      } else {
        NothingToRenew(r, current);
      }
    }

    /** Hashes from an earlier verification of this tree: given exactly when all stat values
        are recorded, and then right at every moment the files have those values. */
    method Remembered(record: string, revision: string, root: string, stats: map<string, Stat>)
      returns (hashes: Option<map<string, Digest>>)
      requires Valid()
      ensures hashes.Some? <==>
                && record in receipts && receipts[record].revision == revision && receipts[record].root == root
                && Changed(receipts[record], stats) == map[]
      ensures hashes.Some? ==> hashes.value.Keys == stats.Keys
      ensures hashes.Some? ==> forall n, t: nat | n in stats && StatAt(world, t, Path(root, n)) == Some(stats[n]) ::
                HoldsAt(world, t, Path(root, n), hashes.value[n])
    {
      if record !in receipts || receipts[record].revision != revision || receipts[record].root != root {
        return None;
      }
      var r := receipts[record];
      if exists n | n in stats :: n !in r.stats || r.stats[n] != stats[n] || n !in r.hashes {
        var n :| n in stats && (n !in r.stats || r.stats[n] != stats[n] || n !in r.hashes);
        assert n in Changed(r, stats);
        return None;
      }
      hashes := Some(map n | n in stats :: r.hashes[n]);
      forall n, t: nat | n in stats && StatAt(world, t, Path(root, n)) == Some(stats[n])
        ensures HoldsAt(world, t, Path(root, n), hashes.value[n])
      {
        SoundMeansHash(world, clock, receipts, record, n, t, Path(root, n));
      }
    }

    /** Hard-link an inode that was hashed after its stat values were `before`. At the last
        look before the link its content has the given hash; the returned
        values stand for it exactly when no write between that look and the one after the
        link kept size and modification time. */
    method PlaceLink(id: Id, before: Stat, sha256: Digest, links: bool, ghost from: nat)
      returns (after: Option<Stat>, ghost seen: nat, ghost linked: nat)
      requires FreshChanges(world) && from <= clock
      requires InodeAt(world, from, id).Some? && FileStat(id, InodeAt(world, from, id).value) == before
      requires forall f | Stable(world, id, f, from, clock) :: sha256 == Sha256(f.content)
      modifies `clock
      ensures clock >= old(clock)
      ensures after.Some? ==>
                && old(clock) <= seen < linked < clock && links
                && InodeAt(world, seen, id).Some? && SameKey(FileStat(id, InodeAt(world, seen, id).value), before)
                && Sha256(InodeAt(world, seen, id).value.content) == sha256
                && InodeAt(world, linked, id).Some? && FileStat(id, InodeAt(world, linked, id).value) == after.value
                && SameKey(after.value, before)
                && (Witnessed(world, clock, after.value, sha256)
                    <==> InodeAt(world, linked, id).value.content == InodeAt(world, seen, id).value.content)
      ensures links && KeepsKey(world, id, before, old(clock)) ==> after.Some? && seen == old(clock) && linked == old(clock) + 2
      ensures links && Undisturbed(world, id, from) && sha256 == Sha256(InodeAt(world, from, id).value.content) ==> after.Some?
    {
      hide Undisturbed, OneChange, Kept;
      if Undisturbed(world, id, from) {
        UndisturbedKeeps(world, id, from);
        KeptAt(world, id, from, before.size, clock + 1);
      }
      var current := InodeAt(world, clock, id);
      ghost var first := clock;
      seen, linked := clock, clock;
      clock := clock + 1;
      if current.None? || !SameKey(FileStat(id, current.value), before) {
        return None, seen, linked;
      }
      if FileStat(id, current.value) != before {
        ghost var reread := clock;
        var again := HashDescriptor(id, before.size);
        var look := InodeAt(world, clock, id);
        if again != Some(sha256) || look.None? || FileStat(id, look.value) != FileStat(id, current.value) {
          clock := clock + 1;
          return None, seen, linked;
        }
        InodeStable(world, id, first, reread, clock, clock);
        assert Stable(world, id, current.value, reread, clock);
        clock := clock + 1;
      } else {
        InodeStable(world, id, from, from, first, first);
        SameChangeTime(world, id, from, from, first);
      }
      if !links {
        return None, seen, linked;
      }
      clock := clock + 1;
      var placed := InodeAt(world, clock, id);
      linked := clock;
      clock := clock + 1;
      if placed.None? || !SameKey(FileStat(id, placed.value), before) {
        return None, seen, linked;
      }
      after := Some(FileStat(id, placed.value));
      if Witnessed(world, clock, after.value, sha256) {
        WitnessedInode(world, clock, after.value, sha256, linked);
      }
    }

    /** The stat values to record for one name: the current ones if they are those right
        after a link of the recorded inode, else what was recorded. */
    method RefreshEntry(r: Receipt, n: string, items: map<Id, Linked>) returns (s: Stat)
      requires n in r.stats && forall id | id in items :: items[id].before.id == id
      modifies `clock
      ensures clock >= old(clock) && Entry(r, n, s, items)
      ensures Quiet(world, old(clock)) ==> Renews(world, old(clock), r, n, s, items)
    {
      s := r.stats[n];
      var id := r.stats[n].id;
      if id in items && Records(r, n, items[id]) {
        if StatAt(world, clock, Path(r.root, n)) == Some(items[id].after) {
          s := items[id].after;
        }
        clock := clock + 1;
      }
    }

    /** Hash a source file, link it if it is the pinned one, and refresh other receipts that
        record its inode. Receipts stay truthful as long as no write until the link kept
        the inode's size and modification time; then, with nothing going on after the link,
        a listed receipt that needed no hashing before needs none after. */
    method LinkAndRefresh(source: Path, pin: Digest, links: bool, paths: seq<string>)
      returns (after: Option<Stat>, ghost linked: nat)
      requires Valid()
      modifies this
      ensures clock >= old(clock) && receipts.Keys == old(receipts).Keys
      ensures forall at | at in receipts && at !in paths :: receipts[at] == old(receipts)[at]
      ensures after.None? ==> Valid() && receipts == old(receipts)
      ensures after.Some? ==> IdAt(world, old(clock), source).Some? && old(clock) <= linked < clock
      ensures after.Some? ==>
                && links && StatAt(world, old(clock), source).Some? && SameKey(after.value, StatAt(world, old(clock), source).value)
      ensures (links && HoldsAt(world, old(clock), source, pin)
               && Undisturbed(world, IdAt(world, old(clock), source).value, old(clock))) ==> after.Some?
      ensures after.Some? && HonestWithin(world, IdAt(world, old(clock), source).value, old(clock), linked) ==>
                && Valid() && Witnessed(world, clock, after.value, pin)
                && Sha256(FileAt(world, old(clock), source).value.content) == pin
                && (Quiet(world, linked) ==>
                     KeptSaved(world, old(clock), linked, IdAt(world, old(clock), source).value, old(receipts), receipts, paths))
    {
      hide Truthful, FreshChanges, Quiet, Refreshed, HonestWithin, KeptSaved, Witnessed, Vouched, Undisturbed, Kept;
      ghost var start, was := clock, receipts;
      linked := clock;
      var id := IdAt(world, clock, source);
      var before := StatAt(world, clock, source);
      if before.None? {
        return None, linked;
      }
      if Undisturbed(world, id.value, start) {
        UndisturbedKeeps(world, id.value, start);
      }
      var h := HashDescriptor(id.value, before.value.size);
      SoundLater(world, start, clock, receipts);
      if h != Some(pin) {
        return None, linked;
      }
      ghost var hashed, seen := clock, clock;
      after, seen, linked := PlaceLink(id.value, before.value, pin, links, start);
      SoundLater(world, hashed, clock, receipts);
      if after.None? {
        return None, linked;
      }
      var item := Linked(pin, before.value, after.value);
      ghost var placed := clock;
      if HonestWithin(world, id.value, start, linked) {
        LinkIsVouched(world, id.value, start, seen, linked, placed, item);
        VouchedOne(world, placed, id.value, item);
      }
      RefreshReceipts(paths, map[id.value := item]);
      if HonestWithin(world, id.value, start, linked) {
        WitnessedLater(world, placed, clock, after.value, pin);
      }
      if HonestWithin(world, id.value, start, linked) && Quiet(world, linked) {
        QuietLater(world, linked, placed);
        SavedAll(world, start, linked, placed, item, was, receipts, paths);
      }
      return after, linked;
    }

    /** Write the first receipt and path record of a directory: when every required name
        still has the stat values with which its placement was journalled, under its pin.
        The receipts stay truthful if the journal is; then every required name's content was
        the pinned one at its look, and with a quiet disk a verification hashes nothing. */
    method Finish(at: string, record: string, revision: string, root: string, pins: map<string, Digest>,
                  journal: map<Path, Placement>) returns (written: bool)
      requires FreshChanges(world)
      modifies `receipts, `clock
      ensures clock >= old(clock)
      ensures !written ==> receipts == old(receipts)
      ensures written ==>
                var r := Receipt(revision, root, Placed(root, pins, journal), pins);
                receipts == old(receipts)[at := r][record := r]
      ensures old(Valid()) && Journalled(world, old(clock), journal) ==> Valid()
      ensures written && Journalled(world, old(clock), journal) ==>
                ProvedPins(world, root, pins, old(clock), clock)
      ensures Quiet(world, old(clock)) ==>
                (written <==> forall n | n in pins :: InPlace(world, old(clock), Path(root, n), pins[n], journal))
      ensures Quiet(world, old(clock)) && written ==> NeedsNone(world, old(clock), receipts[at], pins.Keys)
    {
      hide Quiet, HoldsAt, FreshChanges, Sound, Journalled, InPlace, NeedsNone, ProvedPins, Placed;
      ghost var start, was := clock, receipts;
      ghost var times;
      written, times := LookPlaced(root, pins, journal);
      if old(Valid()) {
        SoundLater(world, start, clock, receipts);
      }
      if !written {
        return;
      }
      var r := Receipt(revision, root, Placed(root, pins, journal), pins);
      receipts := receipts[at := r][record := r];
      if Journalled(world, start, journal) {
        PlacedProved(world, root, pins, journal, times, start, clock);
        if old(Valid()) {
          AllJournalled(root, pins, journal, world, times);
          FinishedSound(world, was, at, record, r, journal, start, clock);
        }
      }
      if Quiet(world, start) {
        PlacedNeedsNone(world, start, r, journal);
      }
    }

    /** Is every required name in place under its pin? */
    method LookPlaced(root: string, pins: map<string, Digest>, journal: map<Path, Placement>)
      returns (all: bool, ghost times: map<string, nat>)
      modifies `clock
      ensures clock >= old(clock)
      ensures all ==> pins.Keys <= times.Keys && forall n | n in pins ::
                old(clock) <= times[n] < clock && InPlace(world, times[n], Path(root, n), pins[n], journal)
      ensures Quiet(world, old(clock)) ==>
                (all <==> forall n | n in pins :: InPlace(world, old(clock), Path(root, n), pins[n], journal))
    {
      hide Quiet, InPlace;
      var todo := pins.Keys;
      times := map[];
      while todo != {}
        invariant clock >= old(clock) && todo <= pins.Keys && pins.Keys - todo <= times.Keys
        invariant forall n | n in pins.Keys - todo ::
                    old(clock) <= times[n] < clock && InPlace(world, times[n], Path(root, n), pins[n], journal)
        invariant Quiet(world, old(clock)) ==>
                    forall n | n in pins.Keys - todo :: InPlace(world, old(clock), Path(root, n), pins[n], journal)
        decreases todo
      {
        var n :| n in todo;
        QuietPlace(world, old(clock), clock, Path(root, n), pins[n], journal);
        if !InPlace(world, clock, Path(root, n), pins[n], journal) {
          clock := clock + 1;
          return false, times;
        }
        times := times[n := clock];
        clock := clock + 1;
        todo := todo - {n};
      }
      return true, times;
    }

    /** Bring one receipt up to date with the links SparkRing just made. */
    method RefreshOne(at: string, items: map<Id, Linked>) returns (renewed: Receipt)
      requires at in receipts && forall id | id in items :: items[id].before.id == id
      modifies `clock
      ensures clock >= old(clock)
      ensures renewed == receipts[at].(stats := renewed.stats) && Entries(receipts[at], renewed, items)
      ensures Quiet(world, old(clock)) ==> Refreshed(world, old(clock), receipts[at], renewed, items)
    {
      var r := receipts[at];
      ghost var start := clock;
      var updated := r.stats;
      var todo := r.stats.Keys;
      hide Renews, Entry, Truthful;
      while todo != {}
        invariant clock >= start && updated.Keys == r.stats.Keys && todo <= r.stats.Keys
        invariant forall n | n in updated && n !in todo :: Entry(r, n, updated[n], items)
        invariant Quiet(world, start) ==> forall n | n in updated && n !in todo :: Renews(world, start, r, n, updated[n], items)
        decreases todo
      {
        var n :| n in todo;
        todo := todo - {n};
        ghost var before := clock;
        var s := RefreshEntry(r, n, items);
        QuietRenews(world, start, before, r, n, s, items);
        updated := updated[n := s];
      }
      renewed := r.(stats := updated);
    }

    /** Bring the receipts and path records at `paths` up to date with links just made. An
        entry that matched its file before the link matches it again; if the links' stat
        values stand for their hashes, no entry vouches for anything that was not verified. */
    method RefreshReceipts(paths: seq<string>, items: map<Id, Linked>)
      requires FreshChanges(world) && forall id | id in items :: items[id].before.id == id
      modifies this
      ensures clock >= old(clock) && receipts.Keys == old(receipts).Keys
      ensures old(Valid()) && Vouched(world, old(clock), items) ==> Valid()
      ensures forall at | at in receipts && at !in paths :: receipts[at] == old(receipts)[at]
      ensures forall at | at in receipts :: receipts[at] == old(receipts)[at].(stats := receipts[at].stats)
      ensures forall at | at in receipts :: Entries(old(receipts)[at], receipts[at], items)
      ensures Quiet(world, old(clock)) ==> forall at | at in paths && at in receipts ::
                Refreshed(world, old(clock), old(receipts)[at], receipts[at], items)
    {
      hide Witnessed, Truthful, FreshChanges, Quiet, Entry, Sound, Vouched;
      ghost var start := clock;
      var done: set<string> := {};
      for i := 0 to |paths|
        invariant clock >= start && receipts.Keys == old(receipts).Keys
        invariant done == set at | at in paths[..i]
        invariant forall at | at in receipts && at !in done :: receipts[at] == old(receipts)[at]
        invariant forall at | at in receipts && at in done ::
                    && receipts[at] == old(receipts)[at].(stats := receipts[at].stats)
                    && Entries(old(receipts)[at], receipts[at], items)
        invariant Quiet(world, start) ==> forall at | at in done && at in receipts ::
                    Refreshed(world, start, old(receipts)[at], receipts[at], items)
      {
        hide Refreshed, Entries;
        var at := paths[i];
        if at !in done && at in receipts {
          QuietLater(world, start, clock);
          QuietRefreshed(world, start, clock, items);
          var renewed := RefreshOne(at, items);
          receipts := receipts[at := renewed];
        }
        done := done + {at};
        assert paths[..i + 1] == paths[..i] + [at];
      }
      assert paths[..|paths|] == paths;
      forall at | at in receipts && at !in done ensures Entries(old(receipts)[at], receipts[at], items) {
        SameEntries(receipts[at], items);
      }
      if old(Valid()) && Vouched(world, start, items) {
        RefreshedSound(world, old(receipts), receipts, items, start, clock);
      }
    }
  }

  /** In a quiet world, once a refreshing verification hashed something again, the path record
      gives every verified name's pinned hash without hashing. */
  method VerifyThenRemember(s: Installer, at: string, record: string, revision: string, root: string, names: seq<string>,
                            pins: map<string, Digest>, stats: map<string, Stat>)
    returns (checked: Option<Receipt>, hashes: Option<map<string, Digest>>)
    requires s.Valid() && Quiet(s.world, s.clock) && forall n | n in names :: n in pins
    requires stats.Keys == set n | n in names
    requires forall n | n in names :: StatAt(s.world, s.clock, Path(root, n)) == Some(stats[n])
    modifies s
    ensures s.Valid() && (checked.Some? ==> at in old(s.receipts))
    ensures checked.Some? && checked.value != old(s.receipts)[at] ==>
              hashes.Some? && hashes.value.Keys == stats.Keys && forall n | n in names :: hashes.value[n] == pins[n]
  {
    hide Sound, FreshChanges, ProvedAtReading, AllMatch, Quiet, NeedsNone;
    ghost var start := s.clock;
    checked := s.VerifyModel(at, record, revision, root, names, pins, true);
    hashes := s.Remembered(record, revision, root, stats);
    if checked.Some? && checked.value != old(s.receipts)[at] {
      QuietLater(s.world, start, s.clock);
      NeedsNoneMeans(s.world, s.clock, checked.value, stats);
      assert AllMatch(s.world, start, root, names, old(s.receipts)[at], pins);
      MatchAtStart(s.world, start, root, names, old(s.receipts)[at], pins);
      forall n | n in names ensures hashes.value[n] == pins[n] {
        assert StatAt(s.world, start, Path(root, n)) == Some(stats[n]);
      }
    }
  }

  lemma MatchAtStart(w: World, t: nat, root: string, names: seq<string>, r: Receipt, pins: map<string, Digest>)
    requires (forall n | n in names :: n in pins) && AllMatch(w, t, root, names, r, pins)
    ensures forall n | n in names :: HoldsAt(w, t, Path(root, n), pins[n])
  {
  }

  /** A write that keeps size and modification time, between the last look and the link: the
      values returned for the hash never stood for it. */
  method LinkMisleads() returns (w: World, after: Option<Stat>)
    ensures FreshChanges(w) && after.Some?
    ensures forall t: nat :: !Witnessed(w, t, after.value, Sha256([1]))
  {
    var id := Id(0, 1);
    w := World((t: nat) => Disk(map[id := if t <= 1 then File([1], 0, 0) else File([2], 0, 1)], map[]));
    var s := new Installer(w, 1);
    ghost var seen, linked;
    after, seen, linked := s.PlaceLink(id, Stat(id, 1, 0, 0), Sha256([1]), true, 0);
    assert InodeAt(w, linked, id) == Some(File([2], 0, 1));
  }

  /** The recorded values right after each link stand for its hash. */
  ghost predicate Vouched(w: World, now: nat, items: map<Id, Linked>) {
    forall id | id in items :: Witnessed(w, now, items[id].after, items[id].sha256)
  }

  /** Every entry of a receipt is as before or that of a linked inode it records. */
  ghost predicate Entries(r: Receipt, renewed: Receipt, items: map<Id, Linked>) {
    renewed.stats.Keys == r.stats.Keys && forall n | n in r.stats :: Entry(r, n, renewed.stats[n], items)
  }

  lemma SameEntries(r: Receipt, items: map<Id, Linked>)
    ensures Entries(r, r, items)
  {
  }

  lemma RefreshedSound(w: World, was: map<string, Receipt>, now: map<string, Receipt>, items: map<Id, Linked>, start: nat, to: nat)
    requires start <= to && Sound(w, start, was) && Vouched(w, start, items) && now.Keys == was.Keys
    requires forall at | at in now :: now[at] == was[at].(stats := now[at].stats) && Entries(was[at], now[at], items)
    ensures Sound(w, to, now)
  {
    hide Truthful, Entry, Witnessed;
    forall at | at in now ensures Truthful(w, to, now[at]) {
      assert Truthful(w, start, was[at]);
      RefreshedTruthful(w, was[at], now[at], items, start, to);
    }
  }

  lemma VouchedOne(w: World, now: nat, id: Id, item: Linked)
    requires Vouched(w, now, map[id := item])
    ensures Witnessed(w, now, item.after, item.sha256)
  {
    hide Witnessed;
    assert id in map[id := item];
  }

  /** Honest writes until the link make the values after it stand for the hash. */
  lemma LinkIsVouched(w: World, id: Id, start: nat, seen: nat, linked: nat, now: nat, item: Linked)
    requires HonestWithin(w, id, start, linked) && start <= seen < linked < now
    requires InodeAt(w, start, id).Some? && FileStat(id, InodeAt(w, start, id).value) == item.before
    requires InodeAt(w, seen, id).Some? && SameKey(FileStat(id, InodeAt(w, seen, id).value), item.before)
    requires Sha256(InodeAt(w, seen, id).value.content) == item.sha256
    requires InodeAt(w, linked, id).Some? && FileStat(id, InodeAt(w, linked, id).value) == item.after
    requires SameKey(item.after, item.before)
    ensures Vouched(w, now, map[id := item])
    ensures Sha256(InodeAt(w, start, id).value.content) == item.sha256
  {
    assert SameKey(FileStat(id, InodeAt(w, seen, id).value), FileStat(id, InodeAt(w, linked, id).value));
    assert SameKey(FileStat(id, InodeAt(w, start, id).value), FileStat(id, InodeAt(w, seen, id).value));
    assert Witnessed(w, now, item.after, item.sha256);
  }

  // ---- what a refresh saves ----

  /** Verifying these names at this moment hashes none of them. */
  ghost predicate NeedsNone(w: World, t: nat, r: Receipt, names: set<string>) {
    forall n | n in names :: n in r.stats && n in r.hashes && StatAt(w, t, Path(r.root, n)) == Some(r.stats[n])
  }

  lemma NeedsNoneMeans(w: World, t: nat, r: Receipt, current: map<string, Stat>)
    requires NeedsNone(w, t, r, current.Keys) && forall n | n in current :: StatAt(w, t, Path(r.root, n)) == Some(current[n])
    ensures Changed(r, current) == map[]
  {
    forall n | n in current ensures n !in Changed(r, current) {
      assert n in current.Keys;
    }
  }

  /** Each name shows what it showed, or has been a name of this inode all along. */
  ghost predicate OnlyLinked(w: World, from: nat, to: nat, root: string, names: set<string>, id: Id) {
    forall n | n in names ::
      || StatAt(w, to, Path(root, n)) == StatAt(w, from, Path(root, n))
      || IdAt(w, to, Path(root, n)) == Some(id) == IdAt(w, from, Path(root, n))
  }

  /** Every listed receipt that needed no hashing before the link needs none after it. */
  ghost predicate KeptSaved(w: World, from: nat, linked: nat, id: Id, was: map<string, Receipt>, now: map<string, Receipt>, paths: seq<string>)
  {
    forall at, names: set<string> | at in paths && at in was && at in now
                                    && NeedsNone(w, from, was[at], names) && OnlyLinked(w, from, linked, was[at].root, names, id) ::
      NeedsNone(w, linked, now[at], names)
  }

  lemma SavedAll(w: World, from: nat, linked: nat, t: nat, item: Linked, was: map<string, Receipt>, now: map<string, Receipt>, paths: seq<string>)
    requires FreshChanges(w) && Sound(w, from, was) && w.disk(t) == w.disk(linked) && now.Keys == was.Keys
    requires forall at | at in now :: now[at] == was[at].(stats := now[at].stats)
    requires forall at | at in paths && at in now :: Refreshed(w, t, was[at], now[at], map[item.before.id := item])
    requires InodeAt(w, from, item.before.id).Some? && FileStat(item.before.id, InodeAt(w, from, item.before.id).value) == item.before
    requires Sha256(InodeAt(w, from, item.before.id).value.content) == item.sha256
    requires InodeAt(w, linked, item.before.id).Some? && FileStat(item.before.id, InodeAt(w, linked, item.before.id).value) == item.after
    ensures KeptSaved(w, from, linked, item.before.id, was, now, paths)
  {
    hide Refreshed, FreshChanges, Truthful, OnlyLinked, NeedsNone;
    forall at, names: set<string> | at in paths && at in was && at in now
                                    && NeedsNone(w, from, was[at], names) && OnlyLinked(w, from, linked, was[at].root, names, item.before.id)
      ensures NeedsNone(w, linked, now[at], names)
    {
      assert Truthful(w, from, was[at]);
      SavedOne(w, from, linked, t, item, was[at], now[at], names);
    }
  }

  lemma SavedOne(w: World, from: nat, linked: nat, t: nat, item: Linked, r: Receipt, renewed: Receipt, names: set<string>)
    requires FreshChanges(w) && Truthful(w, from, r) && w.disk(t) == w.disk(linked) && renewed == r.(stats := renewed.stats)
    requires Refreshed(w, t, r, renewed, map[item.before.id := item])
    requires InodeAt(w, from, item.before.id).Some? && FileStat(item.before.id, InodeAt(w, from, item.before.id).value) == item.before
    requires Sha256(InodeAt(w, from, item.before.id).value.content) == item.sha256
    requires InodeAt(w, linked, item.before.id).Some? && FileStat(item.before.id, InodeAt(w, linked, item.before.id).value) == item.after
    requires NeedsNone(w, from, r, names) && OnlyLinked(w, from, linked, r.root, names, item.before.id)
    ensures NeedsNone(w, linked, renewed, names)
  {
    hide FreshChanges, Witnessed;
    var items := map[item.before.id := item];
    forall n | n in names
      ensures n in renewed.stats && n in renewed.hashes && StatAt(w, linked, Path(r.root, n)) == Some(renewed.stats[n])
    {
      var p := Path(r.root, n);
      assert Renews(w, t, r, n, renewed.stats[n], items) && StatAt(w, t, p) == StatAt(w, linked, p);
      if StatAt(w, linked, p) != StatAt(w, from, p) {
        assert r.stats[n] == item.before;
        WitnessedMeansHash(w, from, r.stats[n], r.hashes[n], from, p);
        assert Records(r, n, item) && item.before.id in items;
      }
    }
  }

  /** The entry has this inode's identifier, its hash, and its size and modification time
      from before hashing. */
  predicate RecordsOf(r: Receipt, n: string, item: Linked)
    requires n in r.stats
  {
    n in r.hashes && r.hashes[n] == item.sha256
    && Stat(item.before.id, item.before.size, item.before.mtime, r.stats[n].ctime) == r.stats[n]
  }

  /** An entry keeps its stat values or takes those of a linked inode it records. */
  ghost predicate Entry(r: Receipt, n: string, s: Stat, items: map<Id, Linked>)
    requires n in r.stats
  {
    s == r.stats[n] || exists id :: id in items && RecordsOf(r, n, items[id]) && s == items[id].after
  }

  /** An entry that records a linked inode takes the values its file has now, if they are
      those right after the link; no entry takes any others. */
  ghost predicate Renews(w: World, t: nat, r: Receipt, n: string, s: Stat, items: map<Id, Linked>)
    requires n in r.stats
  {
    && (s == r.stats[n] || StatAt(w, t, Path(r.root, n)) == Some(s))
    && forall id | id in items && Records(r, n, items[id]) && StatAt(w, t, Path(r.root, n)) == Some(items[id].after) ::
         s == items[id].after
  }

  lemma QuietRenews(w: World, start: nat, t: nat, r: Receipt, n: string, s: Stat, items: map<Id, Linked>)
    requires start <= t && n in r.stats
    ensures Quiet(w, start) ==> Quiet(w, t) && (Renews(w, t, r, n, s, items) ==> Renews(w, start, r, n, s, items))
  {
    QuietLater(w, start, t);
  }

  ghost predicate Refreshed(w: World, t: nat, r: Receipt, renewed: Receipt, items: map<Id, Linked>) {
    renewed.stats.Keys == r.stats.Keys && forall n | n in r.stats :: Renews(w, t, r, n, renewed.stats[n], items)
  }

  lemma QuietRefreshed(w: World, start: nat, t: nat, items: map<Id, Linked>)
    requires start <= t
    ensures Quiet(w, start) ==> forall r, renewed | Refreshed(w, t, r, renewed, items) :: Refreshed(w, start, r, renewed, items)
  {
    QuietLater(w, start, t);
  }

  lemma RefreshedTruthful(w: World, r: Receipt, renewed: Receipt, items: map<Id, Linked>, start: nat, now: nat)
    requires start <= now && Truthful(w, start, r) && renewed == r.(stats := renewed.stats)
    requires forall id | id in items :: Witnessed(w, start, items[id].after, items[id].sha256)
    requires renewed.stats.Keys == r.stats.Keys && forall n | n in r.stats :: Entry(r, n, renewed.stats[n], items)
    ensures Truthful(w, now, renewed)
  {
    forall n | n in renewed.stats && n in renewed.hashes ensures Witnessed(w, now, renewed.stats[n], renewed.hashes[n]) {
      assert Entry(r, n, renewed.stats[n], items);
      if renewed.stats[n] == r.stats[n] {
        assert Witnessed(w, start, r.stats[n], r.hashes[n]);
      } else {
        var id :| id in items && RecordsOf(r, n, items[id]) && renewed.stats[n] == items[id].after;
        assert Witnessed(w, start, items[id].after, items[id].sha256);
      }
    }
  }

  /** Was the name's entry right before SparkRing's link, or is it right still? */
  ghost predicate Covered(r: Receipt, n: string, now: Stat, items: map<Id, Linked>)
    requires n in r.stats && n in r.hashes
  {
    || r.stats[n] == now
    || exists id :: id in items && items[id].before == r.stats[n] && items[id].sha256 == r.hashes[n] && items[id].after == now
  }

  /** A receipt that needed no hashing before SparkRing's links needs none after the refresh. */
  lemma NoHashingAfterRefresh(w: World, t: nat, r: Receipt, renewed: Receipt, items: map<Id, Linked>, current: map<string, Stat>)
    requires Refreshed(w, t, r, renewed, items) && renewed == r.(stats := renewed.stats)
    requires forall n | n in current :: n in r.stats && n in r.hashes && StatAt(w, t, Path(r.root, n)) == Some(current[n])
    requires forall n | n in current :: Covered(r, n, current[n], items)
    ensures Changed(renewed, current) == map[]
  {
    forall n | n in current ensures renewed.stats[n] == current[n] {
      assert Covered(r, n, current[n], items) && Renews(w, t, r, n, renewed.stats[n], items);
      if r.stats[n] != current[n] {
        var id :| id in items && items[id].before == r.stats[n] && items[id].sha256 == r.hashes[n] && items[id].after == current[n];
        assert Records(r, n, items[id]);
      }
    }
  }

  lemma InodeStable(w: World, id: Id, t: nat, from: nat, to: nat, u: nat)
    requires FreshChanges(w) && t <= from && to <= u && t <= u
    requires InodeAt(w, t, id).Some? && InodeAt(w, u, id).Some?
    requires InodeAt(w, t, id).value.ctime == InodeAt(w, u, id).value.ctime
    ensures Stable(w, id, InodeAt(w, t, id).value, from, to)
  {
    SameChangeTime(w, id, t, t, u);
    forall m: nat | from <= m < to ensures InodeAt(w, m, id) == InodeAt(w, t, id) {
      SameChangeTime(w, id, t, m, u);
    }
  }

  lemma WitnessedInode(w: World, now: nat, s: Stat, h: Digest, t: nat)
    requires FreshChanges(w) && Witnessed(w, now, s, h)
    requires InodeAt(w, t, s.id).Some? && FileStat(s.id, InodeAt(w, t, s.id).value) == s
    ensures h == Sha256(InodeAt(w, t, s.id).value.content)
  {
    var u: nat :| u <= now && InodeAt(w, u, s.id).Some?
                  && FileStat(s.id, InodeAt(w, u, s.id).value) == s
                  && h == Sha256(InodeAt(w, u, s.id).value.content);
    SameChangeTime(w, s.id, if u <= t then u else t, if u <= t then u else t, if u <= t then t else u);
  }

  /** What hashing every required file would find at one moment. */
  ghost predicate AllMatch(w: World, t: nat, root: string, names: seq<string>, r: Receipt, pins: map<string, Digest>)
    requires forall n | n in names :: n in pins
  {
    forall n | n in names :: HoldsAt(w, t, Path(root, n), pins[n]) && n in r.hashes && r.hashes[n] == pins[n]
  }

  /** The receipt records each name's stat values as read at some moment of the call, and its
      content was the pinned one at that same moment. */
  ghost predicate ProvedAtReading(w: World, r: Receipt, root: string, names: seq<string>, pins: map<string, Digest>, from: nat, to: nat)
    requires forall n | n in names :: n in pins
  {
    forall n | n in names :: n in r.stats && n in r.hashes && r.hashes[n] == pins[n] &&
      exists t: nat :: from <= t < to && StatAt(w, t, Path(root, n)) == Some(r.stats[n]) && HoldsAt(w, t, Path(root, n), pins[n])
  }

  lemma ReadingProved(w: World, root: string, names: seq<string>, pins: map<string, Digest>, r: Receipt, measured: map<string, Digest>,
                      current: map<string, Stat>, times: map<string, nat>, from: nat, to: nat)
    requires LookedAt(w, root, names, current, times, from, to) && MeasuredAt(w, root, names, measured, current, times)
    requires forall n | n in names :: n in pins && n in r.hashes && r.hashes[n] == measured[n] == pins[n]
    ensures ProvedAtReading(w, Renewed(r, current), root, names, pins, from, to)
  {
    var renewed := Renewed(r, current);
    hide StatAt, HoldsAt;
    forall n | n in names
      ensures n in renewed.stats && exists t: nat ::
                from <= t < to && StatAt(w, t, Path(root, n)) == Some(renewed.stats[n]) && HoldsAt(w, t, Path(root, n), pins[n])
    {
      assert renewed.stats[n] == current[n];
      assert from <= times[n] < to && StatAt(w, times[n], Path(root, n)) == Some(current[n]) && HoldsAt(w, times[n], Path(root, n), pins[n]);
    }
  }

  lemma NothingToRenew(r: Receipt, current: map<string, Stat>)
    requires Changed(r, current) == map[]
    ensures Renewed(r, current) == r
  {
    assert r.stats + map[] == r.stats;
  }

  lemma ChangedIsRenewed(r: Receipt, current: map<string, Stat>)
    requires Changed(r, current) != map[] && forall n | n in current :: n in r.hashes
    ensures Renewed(r, current) != r
  {
    var n :| n in Changed(r, current);
    assert n !in r.stats || r.stats[n] != Renewed(r, current).stats[n];
  }

  /** Other names keep their entries; in a quiet world the renewed ones are those of the files. */
  lemma RenewedKeeps(w: World, root: string, names: seq<string>, r: Receipt, current: map<string, Stat>,
                     times: map<string, nat>, start: nat, now: nat)
    requires LookedAt(w, root, names, current, times, start, now) && r.root == root && start <= now
    requires forall n | n in names :: n in r.hashes
    ensures forall n | n in current :: n in r.hashes
    ensures forall n | n in r.stats && n !in names :: n in Renewed(r, current).stats && Renewed(r, current).stats[n] == r.stats[n]
    ensures Quiet(w, start) ==> NeedsNone(w, now, Renewed(r, current), set n | n in names)
  {
    QuietStats(w, root, names, current, times, start, now);
    QuietLater(w, start, now);
  }

  /** The receipt with the stat values of every name that was hashed again. */
  function Renewed(r: Receipt, current: map<string, Stat>): Receipt {
    r.(stats := r.stats + Changed(r, current))
  }

  lemma HeldIsWitnessed(w: World, t: nat, p: Path, s: Stat, h: Digest, now: nat)
    requires t <= now && StatAt(w, t, p) == Some(s) && HoldsAt(w, t, p, h)
    ensures Witnessed(w, now, s, h)
  {
    assert FileAt(w, t, p) == InodeAt(w, t, s.id);
  }

  lemma RenewedTruthful(w: World, root: string, names: seq<string>, r: Receipt, measured: map<string, Digest>,
                        current: map<string, Stat>, times: map<string, nat>, start: nat, now: nat)
    requires Truthful(w, start, r) && start <= now && LookedAt(w, root, names, current, times, start, now)
    requires MeasuredAt(w, root, names, measured, current, times)
    requires forall n | n in names :: n in r.hashes && r.hashes[n] == measured[n]
    ensures Truthful(w, now, Renewed(r, current))
  {
    var renewed := Renewed(r, current);
    hide StatAt, HoldsAt;
    forall n | n in renewed.stats && n in renewed.hashes ensures Witnessed(w, now, renewed.stats[n], renewed.hashes[n]) {
      if n in current {
        if n in Changed(r, current) {
          HeldIsWitnessed(w, times[n], Path(root, n), current[n], measured[n], now);
        }
      }
      if n in r.stats && renewed.stats[n] == r.stats[n] {
        assert Witnessed(w, start, r.stats[n], r.hashes[n]);
      }
    }
  }

  lemma QuietMeasured(w: World, root: string, names: seq<string>, measured: map<string, Digest>,
                      current: map<string, Stat>, times: map<string, nat>, start: nat, to: nat)
    requires LookedAt(w, root, names, current, times, start, to) && MeasuredAt(w, root, names, measured, current, times)
    ensures Quiet(w, start) ==> forall n | n in names :: HoldsAt(w, start, Path(root, n), measured[n])
  {
    if Quiet(w, start) {
      forall n | n in names ensures HoldsAt(w, start, Path(root, n), measured[n]) {
        assert w.disk(times[n]) == w.disk(start);
      }
    }
  }

  lemma QuietLater(w: World, start: nat, t: nat)
    requires start <= t
    ensures Quiet(w, start) ==> Quiet(w, t) && w.disk(t) == w.disk(start)
  {
  }

  lemma QuietStats(w: World, root: string, names: seq<string>, stats: map<string, Stat>, times: map<string, nat>,
                   start: nat, to: nat)
    requires LookedAt(w, root, names, stats, times, start, to)
    ensures Quiet(w, start) ==> forall n | n in stats :: StatAt(w, start, Path(root, n)) == Some(stats[n])
  {
    if Quiet(w, start) {
      forall n | n in stats ensures StatAt(w, start, Path(root, n)) == Some(stats[n]) {
        assert w.disk(times[n]) == w.disk(start);
      }
    }
  }

  /** Each name's stat values, and the moment between `from` and `to` they were read. */
  ghost predicate LookedAt(w: World, root: string, names: seq<string>, stats: map<string, Stat>, times: map<string, nat>,
                           from: nat, to: nat) {
    && (forall n | n in names :: n in stats)
    && (forall n | n in stats :: n in names && n in times && from <= times[n] < to
                                 && StatAt(w, times[n], Path(root, n)) == Some(stats[n]))
  }

  // ---- whole histories ----

  datatype Operation =
    | LinkFile(source: Path, target: Path, pin: Digest, links: bool, paths: seq<string>)
    | FinishModel(at: string, record: string, revision: string, root: string, pins: map<string, Digest>)
    | VerifyIt(at: string, record: string, revision: string, root: string, names: seq<string>, pins: map<string, Digest>, refresh: bool)

  /** The content that an accepted operation vouches for was there at some moment of it: a
      verified name's at the reading of its stat values. */
  ghost predicate Vouches(w: World, op: Operation, from: nat, to: nat) {
    match op
    case LinkFile(source, _, pin, _, _) => from < to && HoldsAt(w, from, source, pin)
    case FinishModel(_, _, _, root, pins) => ProvedPins(w, root, pins, from, to)
    case VerifyIt(_, _, _, root, names, pins, _) => Checkable(op) && exists r :: ProvedAtReading(w, r, root, names, pins, from, to)
  }

  predicate Checkable(op: Operation) {
    op.VerifyIt? ==> forall n | n in op.names :: n in op.pins
  }

  /** From the moment an operation starts to link an inode, writes that change its content do
      not keep both size and modification time. */
  ghost predicate Honest(w: World, op: Operation, now: nat) {
    op.LinkFile? ==>
      forall s: nat, t: nat | s >= now && IdAt(w, s, op.source).Some? :: HonestWithin(w, IdAt(w, s, op.source).value, s, t)
  }

  method Serve(s: Installer, op: Operation, journal: map<Path, Placement>, ghost now: nat)
    returns (accepted: bool, journal': map<Path, Placement>)
    requires s.Valid() && Journalled(s.world, s.clock, journal) && Checkable(op)
    requires Honest(s.world, op, now) && now <= s.clock
    modifies s
    ensures s.Valid() && Journalled(s.world, s.clock, journal') && s.clock >= old(s.clock)
    ensures accepted ==> Vouches(s.world, op, old(s.clock), s.clock)
  {
    hide Sound, FreshChanges, Journalled, HonestWithin, Witnessed, KeptSaved, Quiet, ProvedAtReading, ProvedPins, AllMatch, NeedsNone, Placed, InPlace;
    ghost var start := s.clock;
    journal' := journal;
    match op {
      case LinkFile(source, target, pin, links, paths) =>
        ghost var linked;
        var after;
        after, linked := s.LinkAndRefresh(source, pin, links, paths);
        JournalledLater(s.world, start, s.clock, journal);
        accepted := after.Some?;
        if after.Some? {
          assert HonestWithin(s.world, IdAt(s.world, start, source).value, start, linked);
          journal' := journal[target := Placement(after.value, pin)];
          JournalledOne(s.world, s.clock, journal, target, Placement(after.value, pin));
        }
      case FinishModel(at, record, revision, root, pins) =>
        accepted := s.Finish(at, record, revision, root, pins, journal);
        JournalledLater(s.world, start, s.clock, journal);
      case VerifyIt(at, record, revision, root, names, pins, refresh) =>
        var checked := s.VerifyModel(at, record, revision, root, names, pins, refresh);
        accepted := checked.Some?;
        JournalledLater(s.world, start, s.clock, journal);
    }
  }

  lemma JournalledOne(w: World, now: nat, journal: map<Path, Placement>, p: Path, one: Placement)
    requires Journalled(w, now, journal) && Witnessed(w, now, one.stats, one.sha256)
    ensures Journalled(w, now, journal[p := one])
  {
    hide Witnessed;
  }

  /** Any number of links, first receipts and verifications, in any order, next to writers
      that are honest about the inodes to be linked: the receipts are truthful at the end, and
      every operation that succeeded proved, within its own span, the content it vouches for. */
  method History(world: World, now: nat, operations: seq<Operation>)
    returns (s: Installer, accepted: seq<bool>, ghost bounds: seq<nat>)
    requires FreshChanges(world)
    requires forall i | 0 <= i < |operations| :: Checkable(operations[i]) && Honest(world, operations[i], now)
    ensures fresh(s) && s.world == world && s.Valid() && |accepted| == |operations|
    // operation i lies between the moments bounds[i] and bounds[i + 1]
    ensures |bounds| == |operations| + 1 && bounds[0] == now && bounds[|operations|] == s.clock
    ensures forall i | 0 <= i < |operations| ::
              bounds[i] <= bounds[i + 1] && (accepted[i] ==> Vouches(world, operations[i], bounds[i], bounds[i + 1]))
  {
    hide Sound, FreshChanges, Honest, Vouches, Checkable, Witnessed, Journalled;
    s := new Installer(world, now);
    accepted := [];
    bounds := [now];
    var journal: map<Path, Placement> := map[];
    NothingJournalled(world, now);
    for k := 0 to |operations|
      invariant fresh(s) && s.world == world && s.Valid() && Journalled(world, s.clock, journal) && now <= s.clock
      invariant |accepted| == k && |bounds| == k + 1 && bounds[0] == now && bounds[k] == s.clock
      invariant forall i | 0 <= i < k ::
                  bounds[i] <= bounds[i + 1] && (accepted[i] ==> Vouches(world, operations[i], bounds[i], bounds[i + 1]))
    {
      var ok;
      ok, journal := Serve(s, operations[k], journal, now);
      accepted := accepted + [ok];
      bounds := bounds + [s.clock];
    }
  }

  lemma NothingJournalled(w: World, now: nat)
    ensures Journalled(w, now, map[])
  {
  }
}
