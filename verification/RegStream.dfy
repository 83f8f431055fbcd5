/**
 * The registry stream: a buffer that grows by kilobytes, with a read and a
 * write offset, saved to the registry in chunks.  Every method is proved
 * against the stream of `Archive` it stands for.
 */
module RegStream {

  import opened Options
  import opened Archive

  /** The registry values of one device. */
  class RegistryKey {
    var count: nat
    var chunks: map<nat, seq<Byte>>

    ghost function View(): Registry
      reads this
    {
      Registry(count, chunks)
    }

    constructor (reg: Registry)
      ensures View() == reg
    {
      count, chunks := reg.count, reg.chunks;
    }
  }

  class RegStream {
    // The stream without a buffer has an empty one.
    var buffer: array<Byte>
    var curr_r: nat
    var curr_w: nat
    var dirty: bool

    ghost function View(): Stream
      reads this, buffer
    {
      Stream(buffer[..], curr_r, curr_w, dirty)
    }

    ghost predicate Valid()
      reads this, buffer
    {
      HasRoom(View())
    }

    constructor ()
      ensures View() == FRESH && Valid() && fresh(buffer)
    {
      buffer := new Byte[0];
      curr_r, curr_w, dirty := 0, 0, false;
    }

    method Realloc(size: nat)
      modifies this
      ensures View() == Grown(old(View()), size) && fresh(buffer)
    {
      var csize := buffer.Length;
      var asize := Capacity(csize, size);
      var bytes := new Byte[asize](_ => 0);
      forall i | 0 <= i < csize {
        bytes[i] := buffer[i];
      }
      assert bytes[..] == buffer[..] + Zeros(asize - csize);
      buffer := bytes;
    }

    method Read(size: nat) returns (bytes: Option<seq<Byte>>)
      modifies this`curr_r
      ensures var o := Fetch(old(View()), size);
              View() == o.s && bytes == if o.Got? then Some(o.value) else None
    {
      if curr_r + size >= buffer.Length {
        return None;
      }
      bytes := Some(buffer[curr_r..curr_r + size]);
      curr_r := curr_r + size;
    }

    /** CopyMemory into the buffer. */
    method CopyIn(at: nat, bs: seq<Byte>)
      requires at + |bs| <= buffer.Length
      modifies buffer
      ensures buffer[..] == Overlay(old(buffer[..]), at, bs)
    {
      forall i | 0 <= i < |bs| {
        buffer[at + i] := bs[i];
      }
    }

    method Write(bs: seq<Byte>)
      requires Valid()
      modifies this, buffer
      ensures View() == Written(old(View()), bs) && Valid()
      ensures buffer == old(buffer) || fresh(buffer)
    {
      WriteAppends(View(), bs);
      if curr_w + |bs| >= buffer.Length {
        Realloc(curr_w + |bs| - buffer.Length);
      }
      dirty := true;
      CopyIn(curr_w, bs);
      curr_w := curr_w + |bs|;
    }

    method Backup(size: int)
      modifies this`curr_r
      ensures View() == BackedUp(old(View()), size)
    {
      if curr_r - size >= 0 {
        curr_r := curr_r - size;
      }
    }

    /** The insertion operators. */
    method Put(v: Value)
      requires Valid() && Archive.Valid(v)
      modifies this, buffer
      ensures View() == Written(old(View()), Encode(v)) && Valid()
      ensures buffer == old(buffer) || fresh(buffer)
    {
      if v.Text? {
        var len, body := Le(2 * (|v.units| + 1), LONG), UnitBytes(v.units + [NUL]);
        WritesJoin(View(), len, body);
        Write(len);
        Write(body);
      } else {
        Write(Encode(v));
      }
    }

    /** The extraction operators; None stands for the exception. */
    method Get(t: Type) returns (v: Option<Value>)
      modifies this`curr_r
      ensures var o := Decode(old(View()), t);
              View() == o.s && v == if o.Got? then Some(o.value) else None
    {
      var bytes := Read(Size(t));
      if bytes.None? {
        return None;
      }
      if !t.TextT? {
        return Some(FromBytes(t, bytes.value));
      }
      var len := UnLe(bytes.value);
      if len == 0 {
        return Some(Text([]));
      }
      var body := Read(len);
      v := if body.Some? then Some(Text(Units(body.value))) else None;
    }

    method PutVersion(version: nat)
      requires Valid() && version < 256
      modifies this, buffer
      ensures View() == Stamped(old(View()), version) && Valid()
      ensures buffer == old(buffer) || fresh(buffer)
    {
      Write(Le(VER_MARK + version, LONG));
    }

    method GetVersion() returns (version: Option<int>)
      modifies this`curr_r
      ensures var o := VersionOf(old(View()));
              View() == o.s && version == if o.Got? then Some(o.value) else None
    {
      var bytes := Read(LONG);
      if bytes.None? {
        return None;
      }
      var id := UnLe(bytes.value);
      if IsMark(id) {
        version := Some(id % 256);
      } else {
        version := Some(-1);
        Backup(LONG);
      }
    }

    /** _regQueryValue: the chunks are read one behind the other. */
    method QueryValue(key: RegistryKey)
      requires key.count * CHUNK <= buffer.Length
      modifies buffer
      ensures buffer[..] == Overlay(old(buffer[..]), 0, LoadedFrom(key.View(), 0))
    {
      ghost var before, all := buffer[..], LoadedFrom(key.View(), 0);
      var curr: nat, i: nat := 0, 0;
      while i < key.count
        invariant i <= key.count && curr <= |all|
        invariant all[curr..] == LoadedFrom(key.View(), i)
        invariant buffer[..] == Overlay(before, 0, all[..curr])
      {
        if i !in key.chunks || |key.chunks[i]| > CHUNK {
          break;
        }
        ghost var done := all[..curr];
        var chunk := key.chunks[i];
        CopyIn(curr, chunk);
        OverlayJoin(before, 0, done, chunk);
        curr := curr + |chunk|;
        i := i + 1;
        assert all[..curr] == done + chunk;
      }
      assert all[..curr] == all;
    }

    method Open(key: RegistryKey)
      modifies this, buffer
      ensures View() == Opened(old(View()), key.View())
      ensures buffer == old(buffer) || fresh(buffer)
    {
      if key.count > 0 {
        Realloc(key.count * CHUNK);
        assert |View().data| == buffer.Length;
        QueryValue(key);
      }
    }

    /** _regSetValue: a kilobyte at a time, then the count. */
    method SetValue(key: RegistryKey, size: nat)
      requires size <= buffer.Length
      modifies key
      ensures key.View() == SavedFrom(old(key.View()), 0, buffer[..size])
    {
      ghost var whole := SavedFrom(key.View(), 0, buffer[..size]);
      var curr: nat, left: nat, i: nat := 0, size, 0;
      while left > 0
        invariant curr + left == size
        invariant SavedFrom(key.View(), i, buffer[curr..size]) == whole
      {
        var n := if left > CHUNK then CHUNK else left;
        assert buffer[curr..size][..n] == buffer[curr..curr + n];
        assert buffer[curr..size][n..] == buffer[curr + n..size];
        key.chunks := key.chunks[i := buffer[curr..curr + n]];
        curr, left, i := curr + n, left - n, i + 1;
      }
      key.count := i;
    }

    method Close(key: RegistryKey)
      requires Valid()
      modifies this`dirty, key
      ensures key.View() == ClosedRegistry(old(View()), old(key.View()))
      ensures View() == old(View()).(dirty := old(dirty) && old(curr_w) == 0)
    {
      if curr_w > 0 && dirty {
        SetValue(key, curr_w);
        dirty := false;
      }
    }
  }
}
