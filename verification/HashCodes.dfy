/** The hash of a key (commons/collections/dictionary.c, dictionary_hash), on 32-bit words. */
module HashCodes {

  function UnsignedChar(c: char): bv32 {
    ((c as int) % 256) as bv32
  }

  function Add10(hash: bv32): bv32 { hash + (hash << 10) }

  function Xor6(hash: bv32): bv32 { hash ^ (hash >> 6) }

  function Add3(hash: bv32): bv32 { hash + (hash << 3) }

  function Xor11(hash: bv32): bv32 { hash ^ (hash >> 11) }

  function Add15(hash: bv32): bv32 { hash + (hash << 15) }

  function AddChar(hash: bv32, c: char): bv32 {
    hash + UnsignedChar(c)
  }

  function Value(hash: bv32): nat {
    hash as nat
  }

  function Mixed(key: string): bv32 {
    if key == [] then 0 else Xor6(Add10(AddChar(Mixed(key[..|key| - 1]), key[|key| - 1])))
  }

  function Of(key: string): nat {
    Value(Add15(Xor11(Add3(Mixed(key)))))
  }

  method DictionaryHash(key: string) returns (code: nat)
    ensures code == Of(key)
  {
    hide AddChar, Add10, Xor6, Add3, Xor11, Add15, Value;
    var hash: bv32 := 0;
    for index := 0 to |key|
      invariant hash == Mixed(key[..index])
    {
      assert key[..index + 1][..index] == key[..index];
      hash := AddChar(hash, key[index]);
      hash := Add10(hash);
      hash := Xor6(hash);
    }
    assert key[..|key|] == key;
    hash := Add3(hash);
    hash := Xor11(hash);
    hash := Add15(hash);
    code := Value(hash);
  }

  // ----- published values of Bob Jenkins' one-at-a-time hash

  lemma MixedOneMore(key: string, c: char)
    ensures Mixed(key + [c]) == Xor6(Add10(AddChar(Mixed(key), c)))
  {
    assert (key + [c])[..|key + [c]| - 1] == key;
  }

  lemma ValuesOnA()
    ensures AddChar(0, 'a') == 0x61 && Add10(0x61) == 0x18461 && Xor6(0x18461) == 0x18270
  {
  }

  lemma ValuesOnB()
    ensures AddChar(0x18270, 'b') == 0x182D2 && Add10(0x182D2) == 0x60CCAD2 && Xor6(0x60CCAD2) == 0x614F9F9
  {
  }

  lemma LastSteps()
    ensures Value(Add15(Xor11(Add3(0x18270)))) == 0xCA2E9442
    ensures Value(Add15(Xor11(Add3(0x614F9F9)))) == 0x45E61E58
  {
  }

  /** The code of the empty key, of one character and of two, in their order. */
  lemma KnownCodes()
    ensures Of("") == 0 && Of("a") == 0xCA2E9442 && Of("ab") == 0x45E61E58
  {
    hide AddChar, Add10, Xor6;
    MixedOneMore("", 'a');
    MixedOneMore("a", 'b');
    assert "" + ['a'] == "a" && "a" + ['b'] == "ab";
    ValuesOnA();
    ValuesOnB();
    LastSteps();
  }
}
