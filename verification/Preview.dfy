/** preview_bytes (engine/app/api/file_previews.py, lines 98-107 and 122-138): the version is looked up, the bytes are
    read, and the version is looked up again, while other requests write the file. */
module Preview {
  import opened Results

  type Bytes = seq<int>

  datatype Entry = Missing | Directory | File(bytes: Bytes, stamp: int)

  datatype Error = NotFound | VersionChanged | TooLarge

  const MAX_PREVIEW_BYTES := 20 * 1024 * 1024

  /** _preview_version: the first lookup. */
  function PreviewVersion(e: Entry): Result<int, Error> {
    match e
    case Missing => Err(NotFound)
    case Directory => Err(NotFound)
    case File(bytes, stamp) => if |bytes| > MAX_PREVIEW_BYTES then Err(TooLarge) else Ok(stamp)
  }

  /** What the endpoint answers when its three storage calls see these entries. */
  function PreviewBytes(token: int, looked: Entry, read: Entry, current: Entry): Result<Bytes, Error> {
    match PreviewVersion(looked)
    case Err(e) => Err(e)
    case Ok(stamp) =>
      if stamp != token then Err(VersionChanged)
      else if !read.File? then Err(VersionChanged)
      else if |read.bytes| > MAX_PREVIEW_BYTES then Err(TooLarge)
      else if current.File? && |current.bytes| > MAX_PREVIEW_BYTES then Err(TooLarge)
      else if !current.File? || current.stamp != token || |read.bytes| != |current.bytes| then Err(VersionChanged)
      else Ok(read.bytes)
  }

  // ----- The file over time -----

  predicate StampAt(h: seq<Entry>, i: int, stamp: int) {
    0 <= i < |h| && h[i].File? && h[i].stamp == stamp
  }

  ghost predicate NewStamp(h: seq<Entry>, i: int, stamp: int) {
    forall j | 0 <= j < i :: !StampAt(h, j, stamp)
  }

  /** Each moment leaves the entry alone, removes it, makes it a directory, or writes a file under a new stamp. */
  ghost predicate History(h: seq<Entry>) {
    forall i | 0 < i < |h| :: h[i] == h[i - 1] || !h[i].File? || NewStamp(h, i, h[i].stamp)
  }

  lemma {:induction false} StampGone(h: seq<Entry>, i: nat, j: nat, k: nat, stamp: int)
    requires History(h) && i <= j <= k < |h|
    requires StampAt(h, i, stamp) && !StampAt(h, j, stamp)
    ensures !StampAt(h, k, stamp)
    decreases k
  {
    if j < k {
      StampGone(h, i, j, k - 1, stamp);
    }
  }

  /** A file with the stamp it had before has not changed in between. */
  lemma {:induction false} SameStampSameFile(h: seq<Entry>, i: nat, k: nat, stamp: int)
    requires History(h) && i <= k < |h| && StampAt(h, i, stamp) && StampAt(h, k, stamp)
    ensures h[k] == h[i]
    decreases k
  {
    if i < k {
      if !StampAt(h, k - 1, stamp) { StampGone(h, i, k - 1, k, stamp); }
      SameStampSameFile(h, i, k - 1, stamp);
    }
  }

  /** Whatever is written in between, an answer is the content of the requested version; and it is given exactly when
      the file had that version, and a permitted size, at the first and at the last lookup. */
  lemma PreviewExact(h: seq<Entry>, i: nat, j: nat, k: nat, token: int, data: Bytes)
    requires History(h) && i <= j <= k < |h|
    ensures PreviewBytes(token, h[i], h[j], h[k]) == Ok(data) <==>
            h[i] == h[k] == File(data, token) && |data| <= MAX_PREVIEW_BYTES
  {
    if StampAt(h, i, token) && StampAt(h, k, token) {
      if !StampAt(h, j, token) { StampGone(h, i, j, k, token); }
      SameStampSameFile(h, i, j, token);
      SameStampSameFile(h, i, k, token);
    }
  }

  predicate Oversized(e: Entry) {
    e.File? && |e.bytes| > 20971520   // 20 MiB
  }

  /** Each refusal, and when it comes: nothing to preview at the first lookup; a file over 20 MiB at any of the three
      calls, as long as the version still matches; anything else is a changed version. */
  lemma PreviewRefused(token: int, looked: Entry, read: Entry, current: Entry)
    ensures var answer, matches := PreviewBytes(token, looked, read, current),
                                   looked.File? && looked.stamp == token && read.File?;
            && (answer == Err(NotFound) <==> !looked.File?)
            && (answer == Err(TooLarge) <==> Oversized(looked) || (matches && (Oversized(read) || Oversized(current))))
            && (answer.Ok? <==>
                  && matches && current.File? && current.stamp == token && |current.bytes| == |read.bytes|
                  && !Oversized(looked) && !Oversized(read))
            && (answer.Ok? ==> answer.value == read.bytes)
  {
  }

  // ----- Stamps that are hashes of the content -----

  /** As an object storage's ETags are: the stamp says what the content is, and a content that returns has its stamp. */
  ghost predicate HashStamps(hash: Bytes -> int, h: seq<Entry>) {
    forall i | 0 <= i < |h| && h[i].File? :: h[i].stamp == hash(h[i].bytes)
  }

  /** Such stamps come back, and an answer is right exactly when the file also had the requested version when its bytes
      were read; otherwise it is another content of the same size. */
  lemma HashStampsRightIff(hash: Bytes -> int, h: seq<Entry>, i: nat, j: nat, k: nat, token: int, data: Bytes)
    requires HashStamps(hash, h) && i < |h| && j < |h| && k < |h|
    requires forall x, y | hash(x) == hash(y) :: x == y
    ensures PreviewBytes(token, h[i], h[j], h[k]) == Ok(data) <==>
            && h[i].File? && h[i].stamp == token && h[k] == h[i] && h[j].File? && h[j].bytes == data
            && |data| == |h[i].bytes| <= MAX_PREVIEW_BYTES
    ensures PreviewBytes(token, h[i], h[j], h[k]) == Ok(data) ==>
              (hash(data) == token <==> StampAt(h, j, token)) && (data == h[i].bytes <==> StampAt(h, j, token))
  {
    if h[i].File? && h[k].File? && h[i].stamp == h[k].stamp {
      assert h[k].bytes == h[i].bytes;
    }
  }

  /** A wrong answer of that kind: the content is replaced and put back around the read. */
  lemma ReturningStampDeceives(hash: Bytes -> int)
    requires hash([1]) != hash([2])
    ensures var h := [File([1], hash([1])), File([2], hash([2])), File([1], hash([1]))];
            HashStamps(hash, h) && PreviewBytes(hash([1]), h[0], h[1], h[2]) == Ok([2])
  {
  }

  // ----- Which stamps make answers right -----

  datatype Change = Put(bytes: Bytes) | Remove | MakeDirectory

  /** How a storage stamps a content that arrives with the change of this number: a counter, a hash, a time, a mix. */
  type Stamping = (Bytes, nat) -> int

  function EntryAfter(stamp: Stamping, changes: seq<Change>, i: nat): Entry
    requires i < |changes|
  {
    match changes[i]
    case Put(bytes) => File(bytes, stamp(bytes, i))
    case Remove => Missing
    case MakeDirectory => Directory
  }

  /** Whatever changes are made, and wherever the three storage calls fall, an answer is the content that the first
      lookup saw under the requested stamp. */
  ghost predicate AnswersRight(stamp: Stamping) {
    forall changes: seq<Change>, i: nat, j: nat, k: nat, token, data | i <= j <= k < |changes| ::
      PreviewBytes(token, EntryAfter(stamp, changes, i), EntryAfter(stamp, changes, j),
                   EntryAfter(stamp, changes, k)) == Ok(data)
      ==> changes[i] == Put(data)
  }

  /** A stamp comes back only for the same content, and then only with the very next change or on the empty file. */
  ghost predicate StampsStayBehind(stamp: Stamping) {
    forall n: nat, m: nat, x, z ::
      n < m && |x| <= MAX_PREVIEW_BYTES && |z| <= MAX_PREVIEW_BYTES && stamp(x, n) == stamp(z, m)
      ==> x == z && (x == [] || m == n + 1)
  }

  /** From change `n` to change `m`: the file is `x`, then `y`, and at the end `z`. */
  function Around(n: nat, m: nat, x: Bytes, y: Bytes, z: Bytes): seq<Change>
    requires n < m
  {
    seq(m + 1, i => if i <= n then Put(x) else if i < m then Put(y) else Put(z))
  }

  /** A stamp that comes back in any other way makes some answer wrong. */
  lemma ReturnDeceives(stamp: Stamping, n: nat, m: nat, x: Bytes, z: Bytes)
    requires n < m && |x| <= MAX_PREVIEW_BYTES && |z| <= MAX_PREVIEW_BYTES && stamp(x, n) == stamp(z, m)
    requires x != z || (x != [] && m != n + 1)
    ensures !AnswersRight(stamp)
  {
    var y := if z == [] then z else [if z[0] == 0 then 1 else 0] + z[1..];
    var changes, j := Around(n, m, x, y, z), if x != z then m else n + 1;
    var data := if x != z then z else y;
    assert PreviewBytes(stamp(x, n), EntryAfter(stamp, changes, n), EntryAfter(stamp, changes, j),
                        EntryAfter(stamp, changes, m)) == Ok(data);
  }

  /** Every answer is right if and only if stamps do not come back. */
  lemma AnswersRightIff(stamp: Stamping)
    ensures AnswersRight(stamp) <==> StampsStayBehind(stamp)
  {
    if n: nat, m: nat, x, z :|
      && n < m && |x| <= MAX_PREVIEW_BYTES && |z| <= MAX_PREVIEW_BYTES && stamp(x, n) == stamp(z, m)
      && !(x == z && (x == [] || m == n + 1))
    {
      ReturnDeceives(stamp, n, m, x, z);
    }
  }

  /** So a counter is safe, and no hash of the content is, however good. */
  lemma CountersAndHashes(hash: Bytes -> int)
    ensures AnswersRight((_, n: nat) => n) && !AnswersRight((x, _: nat) => hash(x))
  {
    AnswersRightIff((_, n: nat) => n);
    ReturnDeceives((x, _: nat) => hash(x), 0, 2, [1], [1]);
  }
}
