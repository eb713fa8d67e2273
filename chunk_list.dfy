/** The chunk list that carries network events in and commands out of the game loop:
    chunks written at the back, read once each through a read cursor. Capacity and the
    byte layout of a chunk are not modelled. */
module ChunkList {

  datatype Option<+T> = None | Some(value: T)

  class List<T> {
    var chunks: seq<T>
    var readPos: nat

    ghost predicate Valid()
      reads this
    {
      readPos <= |chunks|
    }

    /** ChunkListWrite: the chunk goes after every chunk already written. */
    method Write(chunk: T)
      requires Valid()
      modifies this
      ensures Valid() && chunks == old(chunks) + [chunk] && readPos == old(readPos)
    {
      chunks := chunks + [chunk];
    }

    /** ChunkListRead: the next unread chunk, or None (a zero-length buffer) when all are read. */
    method Read() returns (r: Option<T>)
      requires Valid()
      modifies this
      ensures Valid() && chunks == old(chunks)
      ensures old(readPos) < |chunks| ==> r == Some(chunks[old(readPos)]) && readPos == old(readPos) + 1
      ensures old(readPos) == |chunks| ==> r == None && readPos == old(readPos)
    {
      if readPos < |chunks| {
        r := Some(chunks[readPos]);
        readPos := readPos + 1;
      } else {
        r := None;
      }
    }
  }
}
