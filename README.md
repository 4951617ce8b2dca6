# Shenzhen ES3C28P board: status LED, battery report and boot button

This project models the board object of the Shenzhen ES3C28P hardware variant
of the xiaozhi-esp32 voice-assistant firmware. Almost all of that object is
driver bring-up. The model covers the three parts of it that hold logic:

- **Status LED duty.** `SetRgbLedColor` drives a single-channel LED. It averages
  the red, green and blue bytes in `int` arithmetic and stores the result in a
  `uint8_t`. It scales that average onto the 13-bit LEDC duty range 0..8191
  with truncating division, then writes the duty to LEDC channel 0.
- **Battery level.** `GetBatteryLevel` fails with level -1 and both flags clear
  when there is no ADC unit. Otherwise it clamps the computed level into
  0..100, reports "discharging, not charging" and succeeds.
- **Boot button.** The click handler enters Wi-Fi configuration mode while the
  device is starting and returns. In any other state it toggles the chat.

Files:

- `cint.dfy` (module `CInt`): the C types `int` (32-bit), `uint8_t` and
  `uint32_t`, and the truncating conversions that C applies when a wider `int`
  is stored into an unsigned one.
- `es3c28p_board.dfy` (module `Es3c28pBoard`): the conversion functions and
  their lemmas, the battery clamp, the click dispatch, and the class `Board`.
  The class holds the two pieces of state these operations touch: whether
  the ADC handle exists, and the duty last written to the LED channel.

The LED conversion is modelled exactly as written, with the `uint8_t` and
`uint32_t` stores made explicit. The contracts show that the intermediate
sums and products fit a 32-bit `int`, so computing them on unbounded
integers changes nothing. The lemmas show that neither store truncates,
that the duty stays within 13 bits, that it is monotone in each channel, and that distinct averages give duties at least 32 apart. Each
duty maps back to the average it came from. Over all colours the LED can
show exactly 256 distinct duties.

## Model

| member | source | states |
|---|---|---|
| `Es3c28pBoard.AverageBrightness` | main/boards/shenzhen-es3c28p/shenzhen_es3c28p_board.cc:274 | The channel sum (at most 765) does not overflow a 32-bit `int`. Storing the three-channel average in a `uint8_t` never truncates: the value is exactly `(red + green + blue) / 3`. It also lies between the smallest and the largest channel. |
| `Es3c28pBoard.BrightnessToDuty` | main/boards/shenzhen-es3c28p/shenzhen_es3c28p_board.cc:275 | The product `avg * 8191` (at most 2,088,705) does not overflow a 32-bit `int`. The scaled duty is at most 8191, the top of the 13-bit range set at line 168. It is the largest duty with `duty * 255 <= avg * 8191`, which is the floor of the exact proportion. |
| `Es3c28pBoard.RgbToDuty` | main/boards/shenzhen-es3c28p/shenzhen_es3c28p_board.cc:274-275 | The duty for any colour lies in the 13-bit range 0..8191. |
| `Es3c28pBoard.RgbToDutyExtremes` | main/boards/shenzhen-es3c28p/shenzhen_es3c28p_board.cc:274-275 | Black (0,0,0) gives duty 0. White (255,255,255) gives duty 8191. |
| `Es3c28pBoard.BrightnessToDutyStrictlyMonotone` | main/boards/shenzhen-es3c28p/shenzhen_es3c28p_board.cc:275 | A higher average gives a duty at least 32 steps higher. |
| `Es3c28pBoard.RgbToDutyMonotone` | main/boards/shenzhen-es3c28p/shenzhen_es3c28p_board.cc:274-275 | Raising any channel, or all of them, never lowers the duty. So the duty is monotone in each of red, green and blue with the other two fixed. |
| `Es3c28pBoard.DutyToBrightnessRoundTrip` | main/boards/shenzhen-es3c28p/shenzhen_es3c28p_board.cc:275 | The scaling loses no brightness level: each average's duty maps back to that average. |
| `Es3c28pBoard.RgbToDutyGrey` | main/boards/shenzhen-es3c28p/shenzhen_es3c28p_board.cc:274-275 | A grey colour (v,v,v) gives exactly the duty of brightness v, and that duty maps back to v. |
| `Es3c28pBoard.LedDutyLevelsCount` | main/boards/shenzhen-es3c28p/shenzhen_es3c28p_board.cc:271-279 | Over all colours, the duties the LED can be set to are exactly the duties of brightness levels 0..255. There are exactly 256 of them. |
| `Es3c28pBoard.ClampPercent` | main/boards/shenzhen-es3c28p/shenzhen_es3c28p_board.cc:259-261 | The reported level is always a percentage 0..100. A pre-clamp level already in that range is kept unchanged. |
| `Es3c28pBoard.ClampPercentIsNearest` | main/boards/shenzhen-es3c28p/shenzhen_es3c28p_board.cc:259-261 | The clamped level is the percentage nearest to the pre-clamp level. |
| `Es3c28pBoard.ClampPercentMonotoneIdempotent` | main/boards/shenzhen-es3c28p/shenzhen_es3c28p_board.cc:259-261 | Clamping keeps the order of levels, and clamping twice changes nothing further. |
| `Es3c28pBoard.OnBootButtonClick` | main/boards/shenzhen-es3c28p/shenzhen_es3c28p_board.cc:138-145 | One click makes exactly one call. It enters Wi-Fi configuration mode exactly when the device is Starting. It toggles the chat state exactly when the device is in any other state. |
| `Es3c28pBoard.OnBootButtonClickDependsOnlyOnStarting` | main/boards/shenzhen-es3c28p/shenzhen_es3c28p_board.cc:140-144 | Two device states get the same response exactly when both are Starting or neither is. |
| `Es3c28pBoard.Board.constructor` | main/boards/shenzhen-es3c28p/shenzhen_es3c28p_board.cc:194-204 | After construction the battery ADC handle exists (set at line 154), and the LED channel's duty is the 0 that `InitializeRgbLed` configures at line 181. The backlight call at line 203 is taken not to write that channel. |
| `Es3c28pBoard.Board.GetBatteryLevel` | main/boards/shenzhen-es3c28p/shenzhen_es3c28p_board.cc:242-268 | Returns true exactly when the ADC handle exists. Without it: level -1, not charging, not discharging. With it: the level is the pre-clamp level clamped into 0..100, not charging, discharging. |
| `Es3c28pBoard.Board.SetRgbLedColor` | main/boards/shenzhen-es3c28p/shenzhen_es3c28p_board.cc:271-279 | Only the LED duty changes. It becomes `RgbToDuty(red, green, blue)`, which is within 0..8191. The sum and the product are held in 32-bit `int` variables, and the verifier checks that they fit. |

## Left out

- Peripheral bring-up (`InitializeI2c`, `InitializeSpi`, `InitializeDisplay`, `InitializeTouch`, `InitializeBattery`, `InitializeRgbLed`) is reduced to the two fields it sets. These are one-shot calls into ESP-IDF drivers, and any failure aborts through `ESP_ERROR_CHECK`.
- `vTaskDelay` pauses in the panel init sequence: RTOS timing, with nothing to state about them.
- Board.GetBatteryLevel: the parameter `preClampLevel` stands for the level the source computes from the raw ADC reading. That computation converts the reading to a voltage and then to a percentage in 32-bit floating point, with a truncating cast. It is not modelled, so the clamp and the flags are proved for every integer that computation could produce. An observation, worked out by hand and not executed: a 12-bit reading is at most 4095, so with the 3.3 V reference at line 255 the voltage is at most 3.3 V. The level at line 259 is then at most 25, so as written the board cannot report more than 25 %.
- `adc_oneshot_read`, `ledc_set_duty` and `ledc_update_duty` are hardware calls. Only the duty passed to `ledc_set_duty` is kept, as the field `duty`.
- Board.GetBatteryLevel assumes `adc_oneshot_read` (line 252) succeeds. A failed read aborts through `ESP_ERROR_CHECK` and does not return, so the model has no path for it, and `ok == hasAdc` covers only the calls that return.
- `GetAudioCodec` and `GetBacklight` (function-static singletons), `GetDisplay` and `GetTouchHandle`: object wiring with no logic.
- Board.constructor leaves out `GetBacklight()->SetBrightness(100)` (line 203). The backlight is a PWM driver whose LEDC timer and channel are set outside the files modelled here. The model assumes it does not write LEDC channel 0, so that channel's duty is still 0 when construction ends.
- `Application::GetInstance`, `GetDeviceState`, `EnterWifiConfigMode` and `ToggleChatState` belong to the application and Wi-Fi board classes, which are not part of this model. The model keeps only which call a click makes.
- The device-state enumeration is declared in the application's device-state header, which is not part of this model. `DeviceState` lists the application's states, and only `Starting` is significant here.
- The empty `InitializeTools` and the `DECLARE_BOARD` registration.
- `config.h` holds only pin numbers and constants. None of them enter the modelled logic.
