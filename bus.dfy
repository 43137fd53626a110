/** The flat bus of src/modules/bus.rs: only the cartridge ROM below 0x8000 is mapped. */
module Bus {
  import opened Wrappers
  import opened Common
  import Cart

  /** `Bus::read`: addresses below 0x8000 are the cartridge's `read`; every other address
      panics. Reading changes nothing (a function of the cartridge's state). */
  function Read(cart: Cart.Cart, address: UInt16): (r: Result<Byte>)
    reads cart
    ensures address < 0x8000 ==> r == cart.Read(address)
    ensures address >= 0x8000 ==> r.Failure?
  {
    if address < 0x8000 then cart.Read(address) else Failure("bus read not implemented")
  }

  /** A ROM address the cartridge holds reads as its byte; past the ROM or above 0x7FFF
      the read fails. */
  lemma ReadIsRomByte(cart: Cart.Cart, address: UInt16)
    ensures Read(cart, address).Success? <==> address < 0x8000 && address < |cart.data|
    ensures Read(cart, address).Success? ==> Read(cart, address).value == cart.data[address]
  {
  }

  /** `Bus::write`: the cartridge's `write` panics below 0x8000, and the unconditional
      panic after it catches every other address, so every write fails and changes
      nothing. */
  method Write(cart: Cart.Cart, address: UInt16, value: Byte) returns (ok: bool)
    ensures !ok
  {
    if address < 0x8000 {
      ok := cart.Write(address, value);
      return;
    }
    ok := false;
  }
}
