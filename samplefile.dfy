/** The word-aligned file loader `readFile`.  Opening and reading the file
    are not modelled: the file is given as its contents, or None when it
    cannot be opened. */
module SampleFile {
  import opened Wrappers
  import opened Sizing

  /** `n` zero bytes. */
  function ZeroBytes(n: nat): (z: seq<bv8>)
    ensures |z| == n && forall i :: 0 <= i < n ==> z[i] == 0
  {
    seq(n, _ => 0)
  }

  /** readFile: allocates the padded length zero-initialised (calloc), reads
      the whole file into its front, zero-fills the tail again, and stores the
      padded length, not the file size, through `outlength` (a uint32_t).
      When the file cannot be opened it returns NULL and leaves `outlength`
      as it was. */
  method ReadFile(file: Option<seq<bv8>>, outlength: nat) returns (str: array?<bv8>, length: nat)
    ensures file.None? ==> str == null && length == outlength
    ensures file.Some? ==> str != null && fresh(str)
    ensures file.Some? ==> str.Length == PaddedLength(|file.value|)
    ensures file.Some? ==> str[..] == file.value + ZeroBytes(str.Length - |file.value|)
    ensures file.Some? ==> length == Uint32(str.Length)
  {
    if file.None? {
      return null, outlength;
    }
    var contents := file.value;
    var filesize := |contents|;
    var filesizepadded := PaddedLength(filesize);
    str := new bv8[filesizepadded](_ => 0);
    forall i | 0 <= i < filesize {
      str[i] := contents[i];
    }
    var i := filesize;
    while i < filesizepadded
      invariant filesize <= i <= filesizepadded
      invariant str[..filesize] == contents
      invariant forall j :: filesize <= j < i ==> str[j] == 0
    {
      str[i] := 0;
      i := i + 1;
    }
    assert str[..] == contents + ZeroBytes(filesizepadded - filesize);
    length := Uint32(filesizepadded);
  }
}
