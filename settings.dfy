/** The build-time configuration the firmware takes from its menuconfig entries.
    The Wi-Fi SSID and password are handed to the Wi-Fi driver only and are not modelled. */
module Settings {

  datatype Config = Config(
    maxRetry: int,                   // MAXIMUM_RETRY
    doorbellMessage: string,         // DOORBELL_MESSAGE
    connectionMessageEnabled: bool,  // CONNECTION_MSG_ENABLED
    connectionMessage: string,       // CONNECTION_MSG
    channelId: string,               // CHANNEL_ID
    bellPin: nat,                    // BELL_PIN_NUM, the token the bell interrupt enqueues
    bellTimeout: int                 // BELL_TIMEOUT, in seconds
  )
}
