/** The two threshold classifiers: the cache raises alarms with one, the diagnosis reports with the other. */
module Thresholds {
  import opened Config

  datatype Level = WARN | CRITICAL | ERROR

  datatype Code =
    | VARIABLE_ABOVE_ALARM_MAX | VARIABLE_BELOW_ALARM_MIN | VARIABLE_ABOVE_WARN_MAX | VARIABLE_BELOW_WARN_MIN
    | OPCUA_READ_FAILED | COMMUNICATION_ERROR

  /** Stands for the printed pair "level:code". */
  datatype Signature = Signature(level: Level, code: Code)

  datatype Verdict = Verdict(signature: Signature, threshold: real)

  /** The cache's classifier; None is a normal value. */
  function CacheVerdict(rule: Rule, value: real): Option<Verdict> {
    if rule.alarmMax.Some? && value > rule.alarmMax.value then
      Some(Verdict(Signature(CRITICAL, VARIABLE_ABOVE_ALARM_MAX), rule.alarmMax.value))
    else if rule.alarmMin.Some? && value < rule.alarmMin.value then
      Some(Verdict(Signature(CRITICAL, VARIABLE_BELOW_ALARM_MIN), rule.alarmMin.value))
    else if rule.warnMax.Some? && value > rule.warnMax.value then
      Some(Verdict(Signature(WARN, VARIABLE_ABOVE_WARN_MAX), rule.warnMax.value))
    else if rule.warnMin.Some? && value < rule.warnMin.value then
      Some(Verdict(Signature(WARN, VARIABLE_BELOW_WARN_MIN), rule.warnMin.value))
    else None
  }

  datatype Status = StatusNormal | CriticalHigh | CriticalLow | Warning

  /** The diagnosis' classifier. */
  function DiagnosisStatus(rule: Rule, value: real): Status {
    if rule.alarmMax.Some? && value > rule.alarmMax.value then CriticalHigh
    else if rule.alarmMin.Some? && value < rule.alarmMin.value then CriticalLow
    else if (rule.warnMax.Some? && value > rule.warnMax.value) || (rule.warnMin.Some? && value < rule.warnMin.value)
      then Warning
    else StatusNormal
  }

  /** An active signature (None when no alarm is active) and a diagnosis status name the same class. */
  predicate SameClass(signature: Option<Signature>, status: Status) {
    match status
    case StatusNormal => signature == None
    case CriticalHigh => signature == Some(Signature(CRITICAL, VARIABLE_ABOVE_ALARM_MAX))
    case CriticalLow => signature == Some(Signature(CRITICAL, VARIABLE_BELOW_ALARM_MIN))
    case Warning => signature.Some? && signature.value.level == WARN &&
                    signature.value.code in {VARIABLE_ABOVE_WARN_MAX, VARIABLE_BELOW_WARN_MIN}
  }

  function SignatureOf(verdict: Option<Verdict>): Option<Signature> {
    match verdict
    case None => None
    case Some(v) => Some(v.signature)
  }

  lemma ClassifiersAgree(rule: Rule, value: real)
    ensures SameClass(SignatureOf(CacheVerdict(rule, value)), DiagnosisStatus(rule, value))
  {
  }
}
