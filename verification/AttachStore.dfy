/** The content-addressed attachment store and its chunked transfer (bus_attach.py). */
module AttachStore {
  import opened Wrappers
  import opened NotaryLog

  type Bytes = seq<bv8>

  const LOCATOR := "sha256:"

  /** SHA-256 as a hex digest, and the machine's limits: object size, work quota, idle seconds before a restart. */
  datatype Env = Env(digest: Bytes -> string, maxObject: nat, maxWork: nat, stale: int)

  ghost predicate TellsApart(v: Env) { forall x, y :: v.digest(x) == v.digest(y) ==> x == y }

  datatype Desc = Desc(sha: string, size: int, media: string, locator: string)

  /** One numbered piece; `data` is None if it is not valid base64. */
  datatype Chunk = Chunk(sha: string, num: int, last: bool, data: Option<Bytes>)

  /** An unfinished transfer: what arrived, the number expected next, and when the last piece came. */
  datatype Part = Part(content: Bytes, next: nat, touched: int)

  /** Finished objects by name, unfinished transfers by name, and the bytes of all work files, those set aside included. */
  datatype Files = Files(objects: map<string, Bytes>, parts: map<string, Part>, used: int)

  const NO_FILES := Files(map[], map[], 0)

  // -------------------------------------------------------------- descriptors

  /** The patterns end at `$`, which also accepts one trailing newline. */
  function Chomp(s: string): string { if s != "" && s[|s| - 1] == '\n' then s[..|s| - 1] else s }

  predicate MediaChar(ch: char) {
    'A' <= ch <= 'Z' || 'a' <= ch <= 'z' || '0' <= ch <= '9' || ch in {'!', '#', '$', '&', '^', '_', '.', '+', '-'}
  }

  predicate MediaOk(s: string) {
    var t := Chomp(s);
    exists i :: 0 < i < |t| - 1 && t[i] == '/' && forall j | 0 <= j < |t| && j != i :: MediaChar(t[j])
  }

  predicate DescOk(v: Env, d: Desc) {
    IsHex64(Chomp(d.sha)) && 0 <= d.size <= v.maxObject && MediaOk(d.media) && d.locator == LOCATOR + d.sha
  }

  function DescOf(v: Env, data: Bytes, media: string): Desc {
    Desc(v.digest(data), |data|, media, LOCATOR + v.digest(data))
  }

  // ------------------------------------------------------------- put and get

  predicate FileOk(v: Env, content: Bytes, sha: string, size: int) { |content| == size && v.digest(content) == sha }

  function Put(v: Env, f: Files, data: Bytes, media: string): (Files, Result<Desc>) {
    var d := DescOf(v, data, media);
    if |data| > v.maxObject || !DescOk(v, d) then (f, Err("AttachmentError"))
    else if d.sha in f.objects then (f, if FileOk(v, f.objects[d.sha], d.sha, |data|) then Ok(d) else Err("AttachmentError"))
    else (f.(objects := f.objects[d.sha := data]), Ok(d))
  }

  function Get(v: Env, f: Files, d: Desc): Result<Bytes> {
    if !DescOk(v, d) || d.sha !in f.objects || !FileOk(v, f.objects[d.sha], d.sha, d.size) then Err("AttachmentError")
    else Ok(f.objects[d.sha])
  }

  // ------------------------------------------------------------- the transfer

  /** How many pieces: the quotient rounded up, and one even for nothing. */
  function PieceCount(size: nat, piece: nat): nat
    requires piece > 0
  {
    if size == 0 then 1 else (size + piece - 1) / piece
  }

  /** `data[low:high]`. */
  function Slice(data: Bytes, low: nat, high: nat): Bytes
    requires low <= high
  {
    data[if low < |data| then low else |data|..if high < |data| then high else |data|]
  }

  function Piece(sha: string, data: Bytes, piece: nat, i: nat): Chunk
    requires piece > 0
  {
    assert i * piece <= (i + 1) * piece;
    Chunk(sha, i, i + 1 == PieceCount(|data|, piece), Some(Slice(data, i * piece, (i + 1) * piece)))
  }

  /** What a piece meets: the number expected, and the files once an orphaned transfer was set aside. */
  predicate Orphaned(v: Env, f: Files, sha: string, now: int) {
    sha in f.parts && f.parts[sha].next > 0 && now - f.parts[sha].touched >= v.stale
  }

  function Expected(f: Files, sha: string): nat { if sha in f.parts then f.parts[sha].next else 0 }

  /** A piece numbered 0 restarts an orphaned transfer; its work file is set aside, not deleted. */
  function Restarted(v: Env, f: Files, sha: string, num: int, now: int): Files {
    if num == 0 && Orphaned(v, f, sha, now) then f.(parts := f.parts - {sha}) else f
  }

  function Arrived(f: Files, sha: string): Bytes { if sha in f.parts then f.parts[sha].content else [] }

  /** The piece is appended; the last one is checked as a whole, and moved into the store or set aside. */
  function Append(v: Env, f: Files, d: Desc, last: bool, data: Bytes, now: int): (Files, Result<Option<Desc>>) {
    var all := Arrived(f, d.sha) + data;
    var grown := f.(parts := f.parts[d.sha := Part(all, Expected(f, d.sha) + 1, now)], used := f.used + |data|);
    if !last then (grown, Ok(None))
    else if FileOk(v, all, d.sha, d.size) then
      (grown.(parts := grown.parts - {d.sha}, objects := f.objects[d.sha := all], used := grown.used - |all|), Ok(Some(d)))
    else (grown.(parts := grown.parts - {d.sha}), Err("AttachmentError"))
  }

  function ReceiveChunk(v: Env, f: Files, d: Desc, c: Chunk, now: int): (Files, Result<Option<Desc>>) {
    if !DescOk(v, d) || c.sha != d.sha then (f, Err("AttachmentError"))
    else if d.sha in f.objects then (f, Ok(if c.last then Some(d) else None))
    else
      var f1 := Restarted(v, f, d.sha, c.num, now);
      if c.num != Expected(f1, d.sha) || (c.num == 0 && f1.used + d.size > v.maxWork) || c.data.None?
         || |Arrived(f1, d.sha)| + |c.data.value| > d.size then (f1, Err("AttachmentError"))
      else Append(v, f1, d, c.last, c.data.value, now)
  }

  // ------------------------------------------------------------- the live store

  class Store {
    const v: Env
    var objects: map<string, Bytes>
    var parts: map<string, Part>
    var used: int

    function State(): Files
      reads this
    {
      Files(objects, parts, used)
    }

    constructor (v: Env)
      ensures this.v == v && State() == NO_FILES
    {
      this.v := v;
      objects, parts, used := map[], map[], 0;
    }

    method PutData(data: Bytes, media: string) returns (r: Result<Desc>)
      modifies this`objects
      ensures (State(), r) == Put(v, old(State()), data, media)
    {
      hide DescOk;
      var d := DescOf(v, data, media);
      if |data| > v.maxObject || !DescOk(v, d) {
        return Err("AttachmentError");
      }
      if d.sha in objects {
        return if FileOk(v, objects[d.sha], d.sha, |data|) then Ok(d) else Err("AttachmentError");
      }
      objects := objects[d.sha := data];
      r := Ok(d);
    }

    /** Content comes out exactly if it is there under its name, with the size and the hash described. */
    method GetData(d: Desc) returns (r: Result<Bytes>)
      ensures r.Ok? <==> DescOk(v, d) && d.sha in objects && |objects[d.sha]| == d.size && v.digest(objects[d.sha]) == d.sha
      ensures r.Ok? ==> r.value == objects[d.sha]
      ensures r.Err? ==> r.error == "AttachmentError"
    {
      hide DescOk;
      if !DescOk(v, d) || d.sha !in objects {
        return Err("AttachmentError");
      }
      var content := objects[d.sha];
      if |content| != d.size || v.digest(content) != d.sha {
        return Err("AttachmentError");
      }
      r := Ok(content);
    }

    /** The generator: the stored content in numbered pieces, the last of them marked. */
    method Cut(d: Desc, piece: nat) returns (r: Result<seq<Chunk>>)
      requires piece > 0
      ensures r.Ok? <==> Get(v, State(), d).Ok?
      ensures r.Err? ==> r.error == "AttachmentError"
      ensures r.Ok? ==>
                var data := Get(v, State(), d).value;
                && |r.value| == PieceCount(|data|, piece)
                && forall k | 0 <= k < |r.value| ::
                     r.value[k] == Piece(d.sha, data, piece, k) && r.value[k].num == k && (r.value[k].last <==> k == |r.value| - 1)
    {
      hide DescOk, PieceCount;
      var got := GetData(d);
      if got.Err? {
        return Err(got.error);
      }
      var data, out: seq<Chunk> := got.value, [];
      for i := 0 to PieceCount(|data|, piece)
        invariant |out| == i && forall k | 0 <= k < i :: out[k] == Piece(d.sha, data, piece, k)
      {
        out := out + [Piece(d.sha, data, piece, i)];
      }
      r := Ok(out);
    }

    method Receive(d: Desc, c: Chunk, now: int) returns (r: Result<Option<Desc>>)
      modifies this
      ensures (State(), r) == ReceiveChunk(v, old(State()), d, c, now)
    {
      hide DescOk;
      if !DescOk(v, d) || c.sha != d.sha {
        return Err("AttachmentError");
      }
      if d.sha in objects {
        return Ok(if c.last then Some(d) else None);
      }
      if c.num == 0 && Orphaned(v, State(), d.sha, now) {
        parts := parts - {d.sha};
      }
      var expected, had := Expected(State(), d.sha), Arrived(State(), d.sha);
      if c.num != expected || (c.num == 0 && used + d.size > v.maxWork) || c.data.None?
         || |had| + |c.data.value| > d.size {
        return Err("AttachmentError");
      }
      var all := had + c.data.value;
      parts, used := parts[d.sha := Part(all, expected + 1, now)], used + |c.data.value|;
      if !c.last {
        return Ok(None);
      }
      parts := parts - {d.sha};
      if !FileOk(v, all, d.sha, d.size) {
        return Err("AttachmentError");
      }
      objects, used := objects[d.sha := all], used - |all|;
      r := Ok(Some(d));
    }
  }
}
