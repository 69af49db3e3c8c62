/** The usage a response reports. */
module TokenUsage {

  datatype Usage = Usage(prompt: int, response: int, total: int)

  const NO_USAGE := Usage(0, 0, 0)

  /** The counts that are charged to quotas, by quota type. */
  function Counts(u: Usage): map<string, int> {
    map["prompt" := u.prompt, "response" := u.response, "total" := u.total]
  }
}
