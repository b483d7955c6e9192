/**
 * Record shapes of the telemetry the analytics work on
 * (EnvironmentData and BiometricData of the models file).
 * Measurements are JavaScript numbers and become `real`;
 * timestamps are integer milliseconds since the epoch.
 */
module Readings {

  /** Milliseconds since the epoch, as `Date.getTime()` gives them. */
  type Time = int

  /** The two posture labels a smartwatch reports. */
  datatype Posture = Good | Hunched

  /** One environment sample from a desk lamp. */
  datatype EnvironmentReading = EnvironmentReading(
    deviceId: string,
    timestamp: Time,
    illuminance: real,
    temperature: real,
    humidity: real,
    noiseLevel: real)

  /** One biometric sample from a smartwatch. */
  datatype BiometricReading = BiometricReading(
    userId: string,
    timestamp: Time,
    heartRate: real,
    hrv: real,
    posture: Posture,
    movementFrequency: real)

  /** The four averaged environment values that the environment analysis classifies. */
  datatype EnvironmentAverages = EnvironmentAverages(
    temperature: real,
    humidity: real,
    illuminance: real,
    noiseLevel: real)
}
