// Storing one multipart message (agent-api/attach.go, clipstore/clipstore.go):
// whole or not at all, however its bytes arrive.
module Multipart {
  import opened Options

  type Byte = x: int | 0 <= x < 256

  type Files = map<string, seq<Byte>>

  const SNIFF_LEN := 512
  const MAX_BODY_BYTES := 0x10_0000
  const COPY_CHUNK := 0x8000

  datatype ReadEnd = More | Eof | Broken | TooLarge

  function Min(a: int, b: int): int {
    if a <= b then a else b
  }

  // ---------- readers ----------

  /** A part's body as it arrives: the bytes that can be read, then the end or a
      failure (the request's own limit among them). `short` says how much less
      than it was asked for each read gives, `eager` whether a read that takes
      the last byte says so at once. */
  class Source {
    const data: seq<Byte>
    const fails: bool
    const short: nat -> nat
    const eager: nat -> bool
    var pos: nat
    var calls: nat

    ghost predicate Valid() reads this {
      pos <= |data|
    }

    constructor (data: seq<Byte>, fails: bool, short: nat -> nat, eager: nat -> bool)
      ensures Valid() && this.data == data && this.fails == fails && pos == 0
    {
      this.data, this.fails, this.short, this.eager := data, fails, short, eager;
      pos, calls := 0, 0;
    }

    /** At least one byte, or the end. */
    method Read(max: nat) returns (b: seq<Byte>, e: ReadEnd)
      requires Valid() && max > 0
      modifies this
      ensures Valid() && old(pos) <= pos && b == data[old(pos)..pos] && |b| <= max
      ensures e == More || (pos == |data| && e == if fails then Broken else Eof)
      ensures e == More ==> pos > old(pos)
    {
      var left := |data| - pos;
      var n := Min(Min(1 + short(calls), max), left);
      var at := pos;
      pos := pos + n;
      b := data[at..pos];
      e := More;
      if n == 0 || (pos == |data| && eager(calls)) { e := if fails then Broken else Eof; }
      calls := calls + 1;
    }
  }

  /** io.ReadFull: the first bytes, all that were asked for unless the end came. */
  method ReadFull(p: Source, want: nat) returns (head: seq<Byte>, broken: bool)
    requires p.Valid() && p.pos == 0
    modifies p
    ensures p.Valid() && p.pos == |head| && head == p.data[..|head|]
    ensures |head| == Min(want, |p.data|)
    ensures broken <==> |p.data| < want && p.fails
  {
    head, broken := [], false;
    var e := More;
    while |head| < want && e == More
      invariant p.Valid() && p.pos == |head| <= want && head == p.data[..|head|]
      invariant e != More ==> p.pos == |p.data| && e == if p.fails then Broken else Eof
      decreases |p.data| - p.pos, if e == More then 1 else 0
    {
      var b;
      b, e := p.Read(want - |head|);
      head := head + b;
    }
    broken := |head| < want && e == Broken;
  }

  /** cappedReader over the sniffed head and then the rest of the part: at most
      limit bytes pass, and the next one fails. */
  class CappedReader {
    const head: seq<Byte>
    const p: Source
    const limit: nat
    var taken: nat   // of the head
    var n: nat
    var readErr: Option<ReadEnd>

    ghost predicate Valid() reads this, p {
      && p.Valid() && |head| <= |p.data| && head == p.data[..|head|]
      && taken <= |head| && p.pos >= |head| && (taken < |head| ==> p.pos == |head|)
      && n == taken + p.pos - |head| && n <= limit + 1
      && (n > limit ==> readErr == Some(TooLarge))
      && (readErr.Some? ==> readErr == Some(if n > limit then TooLarge else Broken))
      && (readErr == Some(Broken) ==> n == |p.data| && p.fails)
    }

    constructor (head: seq<Byte>, p: Source, limit: nat)
      requires p.Valid() && p.pos == |head| && head == p.data[..|head|]
      ensures Valid() && this.head == head && this.p == p && this.limit == limit
      ensures n == 0 && readErr == None
    {
      this.head, this.p, this.limit := head, p, limit;
      taken, n, readErr := 0, 0, None;
    }

    /** The bytes passed on are the part's next ones; TooLarge comes with the
        byte past the limit, and the end only after every byte. */
    method Read(want: nat) returns (b: seq<Byte>, e: ReadEnd)
      requires Valid() && want > 0
      modifies this, p
      ensures Valid() && old(n) <= n && b == p.data[old(n)..n]
      ensures n <= limit + 1 && (p.pos <= |head| || p.pos == n)
      ensures e == TooLarge <==> n > limit
      ensures e == Eof ==> n == |p.data| && !p.fails
      ensures e == Broken ==> n == |p.data| && p.fails
      ensures e == More ==> n > old(n)
      ensures readErr == if e == TooLarge || e == Broken then Some(e) else old(readErr)
    {
      if n > limit {
        readErr := Some(TooLarge);
        return [], TooLarge;
      }
      var room := Min(want, limit + 1 - n);
      ghost var was := n;
      b, e := Next(room);
      n := n + |b|;
      if n > limit {
        readErr := Some(TooLarge);
        return b, TooLarge;
      }
      if e != More && e != Eof { readErr := Some(e); }
    }

    /** io.MultiReader: the head first, then the part. */
    method Next(room: nat) returns (b: seq<Byte>, e: ReadEnd)
      requires Valid() && 0 < room <= limit + 1 - n
      modifies this`taken, p
      ensures p.Valid() && taken <= |head| && p.pos >= |head| && (taken < |head| ==> p.pos == |head|)
      ensures |b| <= room && n + |b| == taken + p.pos - |head| && b == p.data[n..n + |b|]
      ensures e == More || e == Eof || e == Broken
      ensures e == More ==> |b| > 0
      ensures e != More ==> n + |b| == |p.data| && e == if p.fails then Broken else Eof
    {
      if taken < |head| {
        var k := Min(room, |head| - taken);
        b := head[taken..taken + k];
        taken := taken + k;
        return b, More;
      }
      b, e := p.Read(room);
    }
  }

  // ---------- the directory ----------

  /** Names are one path element that cannot climb out of the directory or hide. */
  predicate SafeElement(s: string) {
    && s != "" && s != "." && s != ".." && s[0] != '.'
    && forall i :: 0 <= i < |s| ==> s[i] != '/' && s[i] != '\\' && s[i] != '\0'
  }

  /** How the disk answers one save: the create, the k-th write, the close. */
  datatype Disk = Disk(creates: bool, writes: nat -> bool, closes: bool)

  ghost predicate Healthy(d: Disk) {
    d.creates && d.closes && forall k: nat :: d.writes(k)
  }

  class Dir {
    var files: Files

    constructor (files: Files)
      ensures this.files == files
    {
      this.files := files;
    }

    /** The create is exclusive: what a conversation points at is never overwritten. */
    method Create(name: string, d: Disk) returns (ok: bool)
      modifies this
      ensures ok <==> name !in old(files) && d.creates
      ensures files == if ok then old(files)[name := []] else old(files)
    {
      if name in files || !d.creates { return false; }
      files := files[name := []];
      return true;
    }

    method Unlink(name: string)
      modifies this
      ensures files == old(files) - {name}
    {
      files := files - {name};
    }

    /** io.Copy into the created file. */
    method Copy(name: string, src: CappedReader, d: Disk) returns (ok: bool)
      requires name in files && files[name] == [] && src.Valid() && src.n == 0 && src.readErr == None
      modifies this, src, src.p
      ensures src.Valid() && files.Keys == old(files).Keys
      ensures forall x :: x in old(files) && x != name ==> files[x] == old(files)[x]
      ensures ok ==> files[name] == src.p.data && |src.p.data| <= src.limit && !src.p.fails && src.n == |src.p.data|
      ensures !ok && src.readErr == None ==> exists k: nat :: !d.writes(k)
      ensures |src.p.data| > src.limit ==> !ok
      ensures src.p.fails ==> !ok
    {
      var k: nat := 0;
      ghost var was := files;
      ok := false;
      while true
        invariant src.Valid() && files.Keys == was.Keys && name in files && src.readErr == None
        invariant forall x :: x in was && x != name ==> files[x] == was[x]
        invariant files[name] == src.p.data[..src.n]
        decreases |src.p.data| - src.n
      {
        ghost var before := src.n;
        var b, e := src.Read(COPY_CHUNK);
        if |b| > 0 {
          if !d.writes(k) { return false; }
          k := k + 1;
          assert src.p.data[..before] + b == src.p.data[..src.n];
          files := files[name := files[name] + b];
        }
        if e == Eof { return true; }
        if e != More { return false; }
      }
    }

    /** Save: the file whole, or nothing. */
    method Save(name: string, src: CappedReader, d: Disk) returns (ok: bool)
      requires src.Valid() && src.n == 0 && src.readErr == None
      modifies this, src, src.p
      ensures src.Valid()
      ensures ok ==>
        && name !in old(files) && SafeElement(name) && files == old(files)[name := src.p.data]
        && |src.p.data| <= src.limit && !src.p.fails && src.n == |src.p.data|
      ensures !ok ==> files == old(files)
      ensures SafeElement(name) && name !in old(files) && Healthy(d) && |src.p.data| <= src.limit && !src.p.fails ==> ok
      ensures !ok && src.readErr == None ==> !SafeElement(name) || name in old(files) || !Healthy(d)
    {
      if !SafeElement(name) { return false; }
      ghost var was := files;
      ok := Create(name, d);
      if !ok { return false; }
      ok := Copy(name, src, d);
      if !ok {
        Unlink(name);
        assert files == was;
        return false;
      }
      if !d.closes {
        Unlink(name);
        assert files == was;
        return false;
      }
      assert files == was[name := src.p.data];
    }

    method Remove(name: string) returns (ok: bool)
      modifies this
      ensures ok <==> SafeElement(name)
      ensures files == if ok then old(files) - {name} else old(files)
    {
      if !SafeElement(name) { return false; }
      Unlink(name);
      return true;
    }
  }

  // ---------- parts and messages ----------

  datatype Limits = Limits(image: nat, file: nat)

  datatype Field = TextField | FileField | OtherField

  /** A part: its field, what of its body arrives and how, the disk's answers,
      and the two names it may be given (each with a token of its own). */
  datatype Part = Part(
    field: Field, data: seq<Byte>, fails: bool, short: nat -> nat, eager: nat -> bool,
    disk: Disk, pasted: string, attached: string)

  datatype Refusal = TextTwice | TextTooLarge | BadBody | UnknownField | Empty | FileTooLarge | StoreFailed

  datatype Stored = Stored(name: string, bytes: nat)

  predicate IsImage(p: Part, image: seq<Byte> -> bool) {
    image(p.data[..Min(SNIFF_LEN, |p.data|)])
  }

  function LimitOf(p: Part, l: Limits, image: seq<Byte> -> bool): nat {
    if IsImage(p, image) then l.image else l.file
  }

  function NameOf(p: Part, image: seq<Byte> -> bool): string {
    if IsImage(p, image) then p.pasted else p.attached
  }

  /** The caller's bytes are fit to store. */
  predicate Fits(p: Part, l: Limits, image: seq<Byte> -> bool) {
    p.data != [] && !p.fails && |p.data| <= LimitOf(p, l, image)
  }

  /** storePart: a part is stored exactly when its bytes fit and the disk takes
      them under a new name; otherwise the directory is as it was. */
  method StorePart(p: Part, dir: Dir, l: Limits, image: seq<Byte> -> bool) returns (r: Option<Stored>, why: Refusal)
    requires p.field == FileField
    modifies dir
    ensures r.Some? ==>
      && Fits(p, l, image) && SafeElement(NameOf(p, image)) && NameOf(p, image) !in old(dir.files)
      && r.value == Stored(NameOf(p, image), |p.data|)
      && dir.files == old(dir.files)[NameOf(p, image) := p.data]
    ensures r.None? ==> dir.files == old(dir.files)
    ensures
      (Fits(p, l, image) && Healthy(p.disk) && SafeElement(NameOf(p, image)) && NameOf(p, image) !in old(dir.files))
        ==> r.Some?
    ensures r.None? ==>
      match why
      case BadBody => p.fails
      case Empty => p.data == []
      case FileTooLarge => |p.data| > LimitOf(p, l, image)
      case StoreFailed => !Healthy(p.disk) || !SafeElement(NameOf(p, image)) || NameOf(p, image) in old(dir.files)
      case _ => false
    // A part whose first 512 bytes are an image's is a pasted image, with the image
    // limit and name, and any other an attached file, with its own.
    ensures r.Some? ==>
      var pasted := image(if |p.data| < 512 then p.data else p.data[..512]);
      && r.value == Stored(if pasted then p.pasted else p.attached, |p.data|)
      && 0 < |p.data| <= (if pasted then l.image else l.file) && !p.fails
      && r.value.name !in old(dir.files) && dir.files == old(dir.files)[r.value.name := p.data]
  {
    assert |p.data| < 512 ==> p.data[..|p.data|] == p.data;
    r := None;
    var src := new Source(p.data, p.fails, p.short, p.eager);
    var head, broken := ReadFull(src, SNIFF_LEN);
    if broken { return None, BadBody; }
    if |head| == 0 { return None, Empty; }
    assert head == p.data[..Min(SNIFF_LEN, |p.data|)];
    var limit, name := l.file, p.attached;
    if image(head) { limit, name := l.image, p.pasted; }
    var capped := new CappedReader(head, src, limit);
    var ok := dir.Save(name, capped, p.disk);
    if !ok {
      if capped.readErr == Some(TooLarge) { return None, FileTooLarge; }
      if capped.readErr.Some? { return None, BadBody; }
      return None, StoreFailed;
    }
    return Some(Stored(name, capped.n)), Empty;
  }

  // ---------- the whole message ----------

  /** A message: its parts, whether the body breaks off after them, and whether
      the store's directory opens. */
  datatype Message = Message(parts: seq<Part>, breaks: bool, opens: bool)

  datatype Answer = Accepted(text: seq<Byte>, stored: seq<Stored>) | Refused(why: Refusal)

  predicate TextFits(p: Part) {
    !p.fails && |p.data| <= MAX_BODY_BYTES
  }

  function TextParts(parts: seq<Part>): seq<Part> {
    if parts == [] then [] else
    TextParts(parts[..|parts| - 1]) + if parts[|parts| - 1].field == TextField then [parts[|parts| - 1]] else []
  }

  function FileParts(parts: seq<Part>): seq<Part> {
    if parts == [] then [] else
    FileParts(parts[..|parts| - 1]) + if parts[|parts| - 1].field == FileField then [parts[|parts| - 1]] else []
  }

  /** The directory with these file parts in it. */
  function WithParts(was: Files, ps: seq<Part>, image: seq<Byte> -> bool): Files {
    if ps == [] then was
    else WithParts(was, ps[..|ps| - 1], image)[NameOf(ps[|ps| - 1], image) := ps[|ps| - 1].data]
  }

  /** Each part's name is a safe one that nothing has yet. */
  predicate NewNames(was: Files, ps: seq<Part>, image: seq<Byte> -> bool) {
    ps == [] ||
    (var n := |ps| - 1;
     NewNames(was, ps[..n], image) && SafeElement(NameOf(ps[n], image))
     && NameOf(ps[n], image) !in WithParts(was, ps[..n], image))
  }

  function StoredAs(ps: seq<Part>, image: seq<Byte> -> bool): (r: seq<Stored>)
    ensures |r| == |ps|
  {
    if ps == [] then []
    else StoredAs(ps[..|ps| - 1], image) + [Stored(NameOf(ps[|ps| - 1], image), |ps[|ps| - 1].data|)]
  }

  predicate PartSound(p: Part, l: Limits, image: seq<Byte> -> bool) {
    match p.field
    case TextField => TextFits(p)
    case FileField => Fits(p, l, image)
    case OtherField => false
  }

  /** Everything a caller can get wrong in the parts, and got right. */
  predicate Sound(parts: seq<Part>, l: Limits, image: seq<Byte> -> bool) {
    |TextParts(parts)| <= 1 && forall i :: 0 <= i < |parts| ==> PartSound(parts[i], l, image)
  }

  /** Nothing on the storing side stands in the way of these parts. */
  ghost predicate Storable(was: Files, parts: seq<Part>, image: seq<Byte> -> bool) {
    && NewNames(was, FileParts(parts), image)
    && forall i :: 0 <= i < |parts| && parts[i].field == FileField ==> Healthy(parts[i].disk)
  }

  lemma StillNew(was: Files, ps: seq<Part>, image: seq<Byte> -> bool, p: Part)
    ensures FileParts(ps + [p]) == if p.field == FileField then FileParts(ps) + [p] else FileParts(ps)
    ensures TextParts(ps + [p]) == if p.field == TextField then TextParts(ps) + [p] else TextParts(ps)
    ensures p.field == FileField ==>
      && WithParts(was, FileParts(ps + [p]), image) == WithParts(was, FileParts(ps), image)[NameOf(p, image) := p.data]
      && StoredAs(FileParts(ps + [p]), image) == StoredAs(FileParts(ps), image) + [Stored(NameOf(p, image), |p.data|)]
      && (NewNames(was, FileParts(ps + [p]), image) <==>
            NewNames(was, FileParts(ps), image) && SafeElement(NameOf(p, image))
            && NameOf(p, image) !in WithParts(was, FileParts(ps), image))
  {
    assert (ps + [p])[..|ps|] == ps;
    if p.field == FileField {
      var fs := FileParts(ps);
      assert (fs + [p])[..|fs|] == fs;
    }
  }

  lemma {:induction false} PrefixParts(parts: seq<Part>, n: nat, was: Files, image: seq<Byte> -> bool)
    requires n <= |parts|
    ensures |TextParts(parts[..n])| <= |TextParts(parts)|
    ensures NewNames(was, FileParts(parts), image) ==> NewNames(was, FileParts(parts[..n]), image)
  {
    if n == |parts| {
      assert parts[..n] == parts;
    } else {
      var m := |parts| - 1;
      PrefixParts(parts[..m], n, was, image);
      assert parts[..m][..n] == parts[..n];
      StillNew(was, parts[..m], image, parts[m]);
      assert parts == parts[..m] + [parts[m]];
    }
  }

  /** The stored files, taken back one by one, leave the directory as it was. */
  method TakeBack(dir: Dir, ghost was: Files, ghost ps: seq<Part>, stored: seq<Stored>, ghost image: seq<Byte> -> bool)
    requires dir.files == WithParts(was, ps, image) && NewNames(was, ps, image) && stored == StoredAs(ps, image)
    modifies dir
    ensures dir.files == was
  {
    ghost var start := dir.files;
    for i := 0 to |stored|
      invariant dir.files == start - Names(stored[..i])
    {
      StoredSafe(was, ps, image, i);
      assert stored[..i + 1] == stored[..i] + [stored[i]];
      var _ := dir.Remove(stored[i].name);
    }
    assert stored[..|stored|] == stored;
    BackAgain(was, ps, image);
  }

  function Names(stored: seq<Stored>): set<string> {
    set s | s in stored :: s.name
  }

  lemma {:induction false} StoredSafe(was: Files, ps: seq<Part>, image: seq<Byte> -> bool, i: nat)
    requires i < |ps| && NewNames(was, ps, image)
    ensures SafeElement(StoredAs(ps, image)[i].name)
    ensures StoredAs(ps, image)[i] == Stored(NameOf(ps[i], image), |ps[i].data|)
  {
    if i < |ps| - 1 { StoredSafe(was, ps[..|ps| - 1], image, i); }
  }

  lemma {:induction false} BackAgain(was: Files, ps: seq<Part>, image: seq<Byte> -> bool)
    requires NewNames(was, ps, image)
    ensures WithParts(was, ps, image) - Names(StoredAs(ps, image)) == was
    ensures forall x :: x in was ==> x in WithParts(was, ps, image)
  {
    if ps != [] {
      var n := |ps| - 1;
      var x := NameOf(ps[n], image);
      BackAgain(was, ps[..n], image);
      assert Names(StoredAs(ps, image)) == Names(StoredAs(ps[..n], image)) + {x};
    }
  }

  /** Where the reading has got to: these parts are sound, and stored. */
  ghost predicate Taken(
      was: Files, now: Files, ps: seq<Part>, l: Limits, image: seq<Byte> -> bool, text: seq<Byte>, stored: seq<Stored>)
  {
    && Sound(ps, l, image) && NewNames(was, FileParts(ps), image)
    && now == WithParts(was, FileParts(ps), image) && stored == StoredAs(FileParts(ps), image)
    && text == if TextParts(ps) == [] then [] else TextParts(ps)[0].data
  }

  /** What the message may be refused for at a part. */
  ghost predicate Wrong(was: Files, before: seq<Part>, p: Part, opens: bool, l: Limits, image: seq<Byte> -> bool) {
    match p.field
    case OtherField => true
    case TextField => TextParts(before) != [] || !TextFits(p)
    case FileField =>
      || !opens || !Fits(p, l, image) || !Healthy(p.disk) || !SafeElement(NameOf(p, image))
      || NameOf(p, image) in WithParts(was, FileParts(before), image)
  }

  lemma TakeText(was: Files, now: Files, ps: seq<Part>, l: Limits, image: seq<Byte> -> bool, text: seq<Byte>,
                 stored: seq<Stored>, p: Part)
    requires Taken(was, now, ps, l, image, text, stored) && p.field == TextField && TextParts(ps) == [] && TextFits(p)
    ensures Taken(was, now, ps + [p], l, image, p.data, stored)
  {
    StillNew(was, ps, image, p);
  }

  lemma WrongRefuses(was: Files, parts: seq<Part>, i: nat, opens: bool, l: Limits, image: seq<Byte> -> bool)
    requires i < |parts| && Wrong(was, parts[..i], parts[i], opens, l, image)
    ensures !(Sound(parts, l, image) && opens && Storable(was, parts, image))
  {
    var p := parts[i];
    assert parts[..i + 1] == parts[..i] + [p];
    PrefixParts(parts, i + 1, was, image);
    StillNew(was, parts[..i], image, p);
  }

  /** One part: the text, or a file for the directory. */
  method ReadPart(ghost was: Files, ghost before: seq<Part>, p: Part, opens: bool, dir: Dir,
                  l: Limits, image: seq<Byte> -> bool, sawText: bool, text: seq<Byte>, stored: seq<Stored>)
    returns (text': seq<Byte>, stored': seq<Stored>, refused: Option<Refusal>)
    requires Taken(was, dir.files, before, l, image, text, stored) && (sawText <==> TextParts(before) != [])
    modifies dir
    ensures refused.Some? ==>
      && Taken(was, dir.files, before, l, image, text', stored') && Wrong(was, before, p, opens, l, image)
    ensures refused.None? ==> Taken(was, dir.files, before + [p], l, image, text', stored')
  {
    text', stored', refused := text, stored, None;
    match p.field
    case TextField =>
      if sawText { return text, stored, Some(TextTwice); }
      if |p.data| > MAX_BODY_BYTES { return text, stored, Some(TextTooLarge); }
      if p.fails { return text, stored, Some(BadBody); }
      TakeText(was, dir.files, before, l, image, text, stored, p);
      text' := p.data;
    case FileField =>
      if !opens { return text, stored, Some(StoreFailed); }
      var saved, why := StorePart(p, dir, l, image);
      if saved.None? { return text, stored, Some(why); }
      stored' := stored + [saved.value];
    case OtherField => refused := Some(UnknownField);
  }

  /** The loop over the parts, up to the end or the first that is refused. */
  method ReadParts(m: Message, dir: Dir, l: Limits, image: seq<Byte> -> bool)
    returns (text: seq<Byte>, stored: seq<Stored>, refused: Option<Refusal>, done: nat)
    modifies dir
    ensures done <= |m.parts| && Taken(old(dir.files), dir.files, m.parts[..done], l, image, text, stored)
    ensures refused.None? ==> done == |m.parts|
    ensures refused.Some? ==>
      done < |m.parts| && Wrong(old(dir.files), m.parts[..done], m.parts[done], m.opens, l, image)
  {
    ghost var was := dir.files;
    var sawText := false;
    text, stored, refused, done := [], [], None, 0;
    while done < |m.parts|
      invariant done <= |m.parts| && Taken(was, dir.files, m.parts[..done], l, image, text, stored)
      invariant refused.None? && (sawText <==> TextParts(m.parts[..done]) != [])
    {
      ghost var before := m.parts[..done];
      text, stored, refused := ReadPart(was, before, m.parts[done], m.opens, dir, l, image, sawText, text, stored);
      if refused.Some? { return; }
      if m.parts[done].field == TextField { sawText := true; }
      NextTaken(m.parts, done, was, dir.files, l, image, text, stored);
      done := done + 1;
    }
  }

  lemma NextTaken(parts: seq<Part>, n: nat, was: Files, now: Files, l: Limits, image: seq<Byte> -> bool,
                  text: seq<Byte>, stored: seq<Stored>)
    requires n < |parts| && Taken(was, now, parts[..n] + [parts[n]], l, image, text, stored)
    ensures Taken(was, now, parts[..n + 1], l, image, text, stored)
    ensures TextParts(parts[..n + 1]) != [] <==> TextParts(parts[..n]) != [] || parts[n].field == TextField
  {
    assert parts[..n + 1] == parts[..n] + [parts[n]] && parts[..n + 1][..n] == parts[..n];
  }

  /** What an accepted message leaves: everything that was there, and one new file
      per part, under its own name, with the part's bytes. */
  lemma {:induction false} PartsAdded(was: Files, ps: seq<Part>, image: seq<Byte> -> bool, i: nat)
    requires NewNames(was, ps, image) && i < |ps|
    ensures var now, x := WithParts(was, ps, image), NameOf(ps[i], image);
      |now| == |was| + |ps| && x !in was && x in now && now[x] == ps[i].data
  {
    hide SafeElement, NameOf, Names;
    FilesCount(was, ps, image);
    var n := |ps| - 1;
    if i < n {
      PartsAdded(was, ps[..n], image, i);
      assert ps[i] == ps[..n][i];
    } else {
      BackAgain(was, ps[..n], image);
    }
  }

  lemma {:induction false} FilesCount(was: Files, ps: seq<Part>, image: seq<Byte> -> bool)
    requires NewNames(was, ps, image)
    ensures |WithParts(was, ps, image)| == |was| + |ps|
  {
    if ps != [] {
      var n := |ps| - 1;
      FilesCount(was, ps[..n], image);
      var before, x := WithParts(was, ps[..n], image), NameOf(ps[n], image);
      assert before[x := ps[n].data].Keys == before.Keys + {x};
    }
  }

  predicate Pasted(p: Part, image: seq<Byte> -> bool) {
    image(if |p.data| < 512 then p.data else p.data[..512])
  }

  predicate KeptAs(p: Part, name: string, image: seq<Byte> -> bool) {
    name == if Pasted(p, image) then p.pasted else p.attached
  }

  lemma {:induction false} PartsOf(ps: seq<Part>)
    ensures forall p :: p in FileParts(ps) <==> p in ps && p.field == FileField
    ensures forall p :: p in TextParts(ps) <==> p in ps && p.field == TextField
  {
    if ps != [] {
      var n := |ps| - 1;
      PartsOf(ps[..n]);
      assert ps == ps[..n] + [ps[n]];
    }
  }

  /** What an accepted message comes to, part by part: no part it does not know,
      every part within its limit and whole, and the text the one text part's, or
      empty. */
  ghost predicate TextIs(parts: seq<Part>, l: Limits, image: seq<Byte> -> bool, text: seq<Byte>) {
    && (forall p :: p in parts ==> p.field == TextField || p.field == FileField)
    && (forall p :: p in parts && p.field == TextField ==> text == p.data && !p.fails && |p.data| <= 0x10_0000)
    && (forall p :: p in parts && p.field == FileField ==>
          0 < |p.data| <= (if Pasted(p, image) then l.image else l.file) && !p.fails)
    && ((forall p :: p in parts ==> p.field != TextField) ==> text == [])
  }

  /** Every file part is a new file with its bytes, listed with its name and size;
      there are no more of them, and no file there before is touched. */
  ghost predicate FilesAre(was: Files, now: Files, parts: seq<Part>, image: seq<Byte> -> bool, stored: seq<Stored>) {
    && (forall x :: x in was ==> x in now && now[x] == was[x]) && |now| == |was| + |stored|
    && (forall p, name :: p in parts && p.field == FileField && KeptAs(p, name, image) ==>
          name !in was && name in now && now[name] == p.data && Stored(name, |p.data|) in stored)
  }

  lemma TakenText(parts: seq<Part>, l: Limits, image: seq<Byte> -> bool)
    requires Sound(parts, l, image)
    ensures TextIs(parts, l, image, if TextParts(parts) == [] then [] else TextParts(parts)[0].data)
  {
    var ts := TextParts(parts);
    PartsOf(parts);
    SoundParts(parts, l, image);
    hide TextParts, FileParts, PartSound, Pasted;
    forall p | p in parts && p.field == TextField ensures ts != [] && ts[0] == p { assert p in ts; }
    assert ts != [] ==> ts[0] in ts;
  }

  lemma TakenFiles(was: Files, parts: seq<Part>, image: seq<Byte> -> bool)
    requires NewNames(was, FileParts(parts), image)
    ensures FilesAre(was, WithParts(was, FileParts(parts), image), parts, image, StoredAs(FileParts(parts), image))
  {
    var fs := FileParts(parts);
    PartsOf(parts);
    FilesCount(was, fs, image);
    BackAgain(was, fs, image);
    hide FileParts, TextParts, WithParts, StoredAs, NewNames, KeptAs;
    forall p, name | p in parts && p.field == FileField && KeptAs(p, name, image)
      ensures var now := WithParts(was, fs, image);
        name !in was && name in now && now[name] == p.data && Stored(name, |p.data|) in StoredAs(fs, image)
    {
      FileKept(was, fs, image, p, name);
    }
  }

  /** What is sound about each part, spelled out. */
  lemma SoundParts(parts: seq<Part>, l: Limits, image: seq<Byte> -> bool)
    requires Sound(parts, l, image)
    ensures forall p :: p in parts ==> p.field == TextField || p.field == FileField
    ensures forall p :: p in parts && p.field == TextField ==> !p.fails && |p.data| <= 0x10_0000
    ensures forall p :: p in parts && p.field == FileField ==>
      0 < |p.data| <= (if Pasted(p, image) then l.image else l.file) && !p.fails
  {
    hide TextParts;
    forall p | p in parts
      ensures PartSound(p, l, image) && (IsImage(p, image) <==> Pasted(p, image))
    {
      assert |p.data| < 512 ==> p.data[..|p.data|] == p.data;
      var i :| 0 <= i < |parts| && parts[i] == p;
    }
  }

  lemma FileKept(was: Files, fs: seq<Part>, image: seq<Byte> -> bool, p: Part, name: string)
    requires NewNames(was, fs, image) && p in fs && KeptAs(p, name, image)
    ensures var now := WithParts(was, fs, image);
      name !in was && name in now && now[name] == p.data && Stored(name, |p.data|) in StoredAs(fs, image)
  {
    assert |p.data| < 512 ==> p.data[..|p.data|] == p.data;
    assert name == NameOf(p, image);
    hide WithParts, StoredAs, NewNames, NameOf;
    var i :| 0 <= i < |fs| && fs[i] == p;
    PartsAdded(was, fs, image, i);
    StoredSafe(was, fs, image, i);
  }

  /** readMultipartMessage. A refused message leaves the directory exactly as it
      was; an accepted one adds exactly its file parts, each under a name that was
      free, with the bytes that were sent. It is accepted if and only if its parts
      are sound and whole, unless the storing side fails. */
  method ReadMessage(m: Message, dir: Dir, l: Limits, image: seq<Byte> -> bool) returns (a: Answer)
    modifies dir
    ensures a.Refused? ==> dir.files == old(dir.files)
    ensures a.Accepted? ==> !m.breaks && Taken(old(dir.files), dir.files, m.parts, l, image, a.text, a.stored)
    ensures a.Accepted? ==>
      && TextIs(m.parts, l, image, a.text)
      && FilesAre(old(dir.files), dir.files, m.parts, image, a.stored)
    ensures Sound(m.parts, l, image) && !m.breaks && m.opens && Storable(old(dir.files), m.parts, image) ==> a.Accepted?
  {
    ghost var was := dir.files;
    var text, stored, refused, done := ReadParts(m, dir, l, image);
    if refused.Some? { WrongRefuses(was, m.parts, done, m.opens, l, image); }
    if refused.None? && m.breaks { refused := Some(BadBody); }
    if refused.Some? {
      TakeBack(dir, was, FileParts(m.parts[..done]), stored, image);
      return Refused(refused.value);
    }
    assert m.parts[..done] == m.parts;
    TakenText(m.parts, l, image);
    TakenFiles(was, m.parts, image);
    return Accepted(text, stored);
  }
}
