/**
 * The fatal-error check of src/vk/debug.cpp.
 *
 * `vulkanCheck` either returns normally or throws a `std::runtime_error`
 * whose text names the calling function and carries the caller's message.
 * Here a raised error is the `Fail` outcome; the name that
 * `std::source_location` supplies is passed in as `functionName`.
 */
module Debug {
  import opened Wrappers

  /** `VkResult`: a signed 32-bit enumeration value. */
  type VkResult = x: int | -0x8000_0000 <= x < 0x8000_0000

  const VK_SUCCESS: VkResult := 0
  const VK_INCOMPLETE: VkResult := 5
  const VK_SUBOPTIMAL_KHR: VkResult := 1000001003
  const VK_ERROR_OUT_OF_DATE_KHR: VkResult := -1000001004

  /** Reads a 32-bit word as a two's-complement signed value. */
  function AsSigned32(w: bv32): (r: VkResult)
    ensures r < 0 <==> w as int >= 0x8000_0000
    ensures r >= 0 ==> r == w as int
    ensures r < 0 ==> r + 0x1_0000_0000 == w as int
  {
    var u := w as int;
    if u < 0x8000_0000 then u else u - 0x1_0000_0000
  }

  /** `static_cast<VkResult>(~VK_SUCCESS)`, the synthetic failure code the viewer raises with. */
  const VK_NOT_SUCCESS: VkResult := AsSigned32(!(VK_SUCCESS as bv32))

  /** The errors a fatal path can raise. */
  datatype Error =
    | RuntimeError(message: string)  // thrown by vulkanCheck
    | BadOptionalAccess              // thrown by std::optional::value() on an empty optional
    | OutOfRange                     // thrown by std::vector::at with an index past the end

  /** The text `vulkanCheck` streams into its error: `` `name`: msg`` and a newline. */
  function ErrorMessage(functionName: string, msg: string): (text: string)
    ensures |text| == |functionName| + |msg| + 5
  {
    "`" + functionName + "`: " + msg + "\n"
  }

  /** Recovers the caller's message from an error text raised on behalf of `functionName`. */
  function CallerMessage(functionName: string, text: string): (msg: string)
    requires |text| >= |functionName| + 5
  {
    text[|functionName| + 4 .. |text| - 1]
  }

  /** `vulkanCheck(result, msg)`: passes on success and raises the formatted message otherwise. */
  function VulkanCheck(result: VkResult, msg: string, functionName: string): (r: Outcome<Error>)
    ensures r.Pass? <==> result == VK_SUCCESS
    ensures r.Fail? ==> r.error.RuntimeError? && r.error.message == ErrorMessage(functionName, msg)
  {
    if result == VK_SUCCESS then Pass
    else Fail(RuntimeError(ErrorMessage(functionName, msg)))
  }

  /** The raised text starts with the back-quoted function name and ends with the message and a newline. */
  lemma ErrorMessageShape(functionName: string, msg: string)
    ensures var text := ErrorMessage(functionName, msg);
      && text[..|functionName| + 2] == "`" + functionName + "`"
      && text[|text| - |msg| - 1..] == msg + "\n"
      && text[|text| - 1] == '\n'
  {
    var text := ErrorMessage(functionName, msg);
    assert text == ("`" + functionName + "`") + (": " + msg + "\n");
    assert text == ("`" + functionName + "`: ") + (msg + "\n");
  }

  /** The caller's message can be read back from the raised text: no two messages give the same error. */
  lemma CallerMessageRoundTrip(functionName: string, msg: string)
    ensures CallerMessage(functionName, ErrorMessage(functionName, msg)) == msg
  {
    var text := ErrorMessage(functionName, msg);
    assert text == ("`" + functionName + "`: ") + msg + "\n";
  }

  /** Both synthetic codes the viewer raises with are failures, so they always raise. */
  lemma SyntheticCodesRaise(msg: string, functionName: string)
    ensures VK_NOT_SUCCESS == -1
    ensures VulkanCheck(VK_NOT_SUCCESS, msg, functionName).Fail?
    ensures VulkanCheck(VK_INCOMPLETE, msg, functionName).Fail?
  {
  }
}
