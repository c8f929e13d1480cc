/** The token answer of the Swedish register's authorisation server (`Models/Token.cs`). */
module Token {

  /** The values of a .NET `int`. */
  type Int32 = i: int | -0x8000_0000 <= i < 0x8000_0000

  datatype TokenResponse = TokenResponse(accessToken: string, scope: string, tokenType: string, expiresIn: Int32)

  /** Two's-complement wrap-around of an `int` result, as unchecked C# arithmetic does it. */
  function Wrap32(x: int): (r: Int32)
    ensures (r - x) % 0x1_0000_0000 == 0
  {
    (x + 0x8000_0000) % 0x1_0000_0000 - 0x8000_0000
  }
}
