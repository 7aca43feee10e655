/** Windows result codes (HRESULTs), the Win32-to-HRESULT mapping the installer
    relies on, and the small failure-carrying wrappers used for the operating
    system's answers. */
module HResults {

  /** A 32-bit signed Windows result code. */
  newtype HResult = x: int | -0x8000_0000 <= x < 0x8000_0000

  /** A Win32 error code: an unsigned 32-bit DWORD. */
  type Win32Error = x: int | 0 <= x < 0x1_0000_0000

  /** A result code that FAILED() accepts. Every exception the installer throws
      (through THROW_IF_FAILED, THROW_LAST_ERROR_IF, THROW_HR_MSG) carries one. */
  type FailureCode = h: HResult | h < 0 witness -1

  /** SUCCEEDED(hr): the sign bit is clear. */
  predicate Succeeded(hr: HResult) { hr >= 0 }

  /** FAILED(hr): the sign bit is set. */
  predicate Failed(hr: HResult) { hr < 0 }

  const S_OK: HResult := 0
  const FACILITY_WIN32: int := 7

  const ERROR_ACCESS_DENIED: Win32Error := 5
  const ERROR_NOT_SUPPORTED: Win32Error := 50
  const ERROR_PACKAGE_ALREADY_EXISTS: Win32Error := 15611

  /** The 32 bits of a result code read as an unsigned number. */
  function Unsigned(hr: HResult): (u: int)
    ensures 0 <= u < 0x1_0000_0000
    ensures (u >= 0x8000_0000) == Failed(hr)
  {
    if hr < 0 then hr as int + 0x1_0000_0000 else hr as int
  }

  /** HRESULT_FACILITY: bits 16 to 28. */
  function Facility(hr: HResult): int { (Unsigned(hr) / 0x1_0000) % 0x2000 }

  /** HRESULT_CODE: the low 16 bits. */
  function Code(hr: HResult): int { Unsigned(hr) % 0x1_0000 }

  /** HRESULT_FROM_WIN32: zero stays S_OK, a code that is already negative as an
      HRESULT is passed through, any other code keeps its low 16 bits and gets
      the Win32 facility and the failure bit, with bits 29 and 30 clear (the
      result is 0x8007xxxx). */
  function HResultFromWin32(x: Win32Error): (hr: HResult)
    ensures x == 0 ==> hr == S_OK
    ensures 0 < x < 0x8000_0000 ==>
              Failed(hr) && Facility(hr) == FACILITY_WIN32 && Code(hr) == x % 0x1_0000
    ensures 0 < x < 0x8000_0000 ==> Unsigned(hr) / 0x2000_0000 == 4
    ensures x >= 0x8000_0000 ==> Unsigned(hr) == x
  {
    if x >= 0x8000_0000 then (x - 0x1_0000_0000) as HResult
    else if x == 0 then S_OK
    else (x % 0x1_0000 + FACILITY_WIN32 * 0x1_0000 + 0x8000_0000 - 0x1_0000_0000) as HResult
  }

  /** Two different 16-bit Win32 codes never map to the same HRESULT, so a
      comparison against HResultFromWin32(c) recognises exactly the code c. */
  lemma HResultFromWin32Injective(a: Win32Error, b: Win32Error)
    requires 0 < a < 0x1_0000 && 0 < b < 0x1_0000
    requires HResultFromWin32(a) == HResultFromWin32(b)
    ensures a == b
  {
  }

  /** HRESULT_FROM_WIN32(ERROR_ACCESS_DENIED), 0x80070005. */
  const HR_ACCESS_DENIED: FailureCode := HResultFromWin32(ERROR_ACCESS_DENIED)
  /** HRESULT_FROM_WIN32(ERROR_NOT_SUPPORTED), 0x80070032. */
  const HR_NOT_SUPPORTED: FailureCode := HResultFromWin32(ERROR_NOT_SUPPORTED)
  /** HRESULT_FROM_WIN32(ERROR_PACKAGE_ALREADY_EXISTS), 0x80073CFB: what the
      deployment service reports when the package is already installed. */
  const HR_PACKAGE_ALREADY_EXISTS: FailureCode := HResultFromWin32(ERROR_PACKAGE_ALREADY_EXISTS)

  /** An operating-system answer that is either a value or a thrown failure. */
  datatype Result<T> = Ok(value: T) | Err(hr: FailureCode)

  /** How a step that returns nothing ends: normally, or by throwing. */
  datatype Completion = Returned | Threw(hr: FailureCode)

  /** A value that may be absent (a null pointer in the source). */
  datatype Option<T> = Nothing | Some(value: T)
}
