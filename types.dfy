/** The records of types.ts, and the health-log entry shape that the tracker screen stores. */
module Types {
  import opened Wrappers

  /** The three privacy switches of a profile. */
  datatype Privacy = Privacy(
    shareWithPolice: bool,    // shareTraumaAnalysisWithPolice
    shareWithGuardian: bool,  // shareTraumaAnalysisWithGuardian
    anonymousDefault: bool    // anonymousModeDefault
  )

  /** Names one of the three privacy switches. */
  datatype PrivacyFlag = SharePolice | ShareGuardian | AnonymousDefault

  /** The value of one switch. */
  function Flag(p: Privacy, k: PrivacyFlag): bool
  {
    match k
    case SharePolice => p.shareWithPolice
    case ShareGuardian => p.shareWithGuardian
    case AnonymousDefault => p.anonymousDefault
  }

  /** The privacy settings a new draft starts with and that the settings screen supplies when they are missing. */
  const DefaultPrivacy := Privacy(false, true, true)

  /**
   * `UserProfile`. The privacy settings are declared required, but the
   * settings screen handles a profile without them, so they are optional here.
   */
  datatype Profile = Profile(
    name: string,
    email: string,
    gender: string,
    age: int,
    profession: string,
    photo: Option<string>,
    contact: string,
    parentContact: string,
    guardianName: string,
    guardianContact: string,
    peerName: string,
    peerContact: string,
    aadhar: string,
    pan: Option<string>,
    isRegistered: bool,
    points: int,
    badges: seq<string>,
    privacy: Option<Privacy>,
    customApiKey: Option<string>
  )

  /** `Theme.LIGHT` and `Theme.DARK`. */
  datatype Theme = Light | Dark

  /** One forensic observation as the tracker screen builds it. */
  datatype HealthLog = HealthLog(
    id: int,            // Date.now() at saving
    date: string,       // the selected day rendered with toDateString
    rawDate: string,    // the selected day as YYYY-MM-DD
    discharge: string,
    location: string,
    notes: string,
    timestamp: string   // toISOString at saving
  )
}
