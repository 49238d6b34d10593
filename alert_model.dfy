/** The alert document raised for caregivers. */
module AlertModel {
  import opened Wrappers
  import opened Vocabulary

  datatype AlertType = LowWellness | Crisis | PatternDetected | MedicationReminder

  datatype Severity = Low | Medium | High | Critical

  function AlertTypeName(t: AlertType): string
  {
    match t
    case LowWellness => "low_wellness"
    case Crisis => "crisis"
    case PatternDetected => "pattern_detected"
    case MedicationReminder => "medication_reminder"
  }

  function SeverityName(s: Severity): string
  {
    match s
    case Low => "low"
    case Medium => "medium"
    case High => "high"
    case Critical => "critical"
  }

  /** The owner is required and the originating record is optional; the
      type is required, and the enumerations are the datatypes above. */
  datatype Alert = Alert(
    userId: Id,
    emotionRecordId: Option<Id>,
    alertType: AlertType,
    severity: Severity,
    message: Option<string>,
    resolved: bool,
    notifiedCaregiver: bool,
    caregiverResponse: Option<string>,
    timestamp: int)

  /** An alert with only the required fields given: severity `medium`, not
      resolved, caregiver not notified, no message, response or record. */
  function NewAlert(userId: Id, alertType: AlertType, now: int): Alert
  {
    Alert(userId, None, alertType, Medium, None, false, false, None, now)
  }

  /** A new alert is `medium`, unresolved and unnotified, and carries no
      record reference, message or caregiver response. */
  lemma NewAlertDefaults(userId: Id, alertType: AlertType, now: int)
    ensures var a := NewAlert(userId, alertType, now);
      && a.userId == userId && a.alertType == alertType && a.timestamp == now
      && a.severity == Medium && !a.resolved && !a.notifiedCaregiver
      && a.emotionRecordId.None? && a.message.None? && a.caregiverResponse.None?
  {
  }

  /** Each enumeration value is stored under its own name. */
  lemma NamesDistinct(t1: AlertType, t2: AlertType, s1: Severity, s2: Severity)
    ensures AlertTypeName(t1) == AlertTypeName(t2) ==> t1 == t2
    ensures SeverityName(s1) == SeverityName(s2) ==> s1 == s2
  {
  }
}
