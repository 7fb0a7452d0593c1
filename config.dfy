/** The MQTT topics the dashboard listens on and publishes to (constants/Config.ts). */
module Config {
  /** Topic on which the light controller reports whether the light is on. */
  const StatusTopic: string := "sensor/light_status"
  /** Topic on which the sensor publishes temperature/humidity readings as JSON. */
  const SensorTopic: string := "sensor/TempHumi"
  /** Topic on which the dashboard publishes on/off commands. */
  const CommandTopic: string := "api/control"
}
