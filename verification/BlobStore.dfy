/** The in-memory blob store (internal/blob/store.go). Payloads are mutable buffers, so the
    copies that `Put` and `Get` make are what keeps a stored blob apart from its callers. */
module BlobStore {
  import opened Core

  class MemoryStore {
    var data: map<string, array<bv8>>

    ghost function Contents(): map<string, Bytes>
      reads this, data.Values
    {
      map k | k in data :: data[k][..]
    }

    constructor ()
      ensures Contents() == map[]
    {
      data := map[];
    }

    /** The new blob sits in a buffer that nobody else holds; the other buffers are kept. */
    method Put(key: string, payload: array<bv8>)
      modifies this
      ensures Contents() == old(Contents())[key := old(payload[..])]
      ensures key in data && fresh(data[key]) && data == old(data)[key := data[key]]
    {
      var copy_ := new bv8[payload.Length](i requires 0 <= i < payload.Length reads payload => payload[i]);
      assert copy_[..] == payload[..];
      data := data[key := copy_];
    }

    /** The caller gets a buffer of its own: writing to it cannot change the store. */
    method Get(key: string) returns (found: bool, payload: array<bv8>)
      ensures found <==> key in data
      ensures fresh(payload)
      ensures found ==> payload[..] == Contents()[key]
    {
      if key !in data {
        payload := new bv8[0];
        return false, payload;
      }
      var stored := data[key];
      payload := new bv8[stored.Length](i requires 0 <= i < stored.Length reads stored => stored[i]);
      assert payload[..] == stored[..];
      found := true;
    }
  }
}
