/** The exceptions the relay core raises, with the messages it attaches. */
module Failures {

  /** DeviceNotFoundError, DeviceAccessError and SerialConnectionError are
      the three connection errors the reconnect loop retries on; ValueError
      and ZeroDivisionError propagate unconditionally, as does Other, any
      exception of a type the relay core does not name. */
  datatype Failure =
    | DeviceNotFound(message: string)
    | DeviceAccess(message: string)
    | SerialConnection(message: string)
    | ValueError(message: string)
    | ZeroDivision
    | Other(message: string)

  /** The errors run_event_loop may retry on (key2ser/runner.py:872). */
  predicate IsConnectionError(f: Failure) {
    f.DeviceNotFound? || f.DeviceAccess? || f.SerialConnection?
  }

  const SendFailedMessage: string := "シリアルへの送信に失敗しました。"
  const UnknownEncodingMessage: string := "output.encoding に未対応の文字コードが指定されています。"
  const ModemFailedMessage: string := "モデム制御線の設定に失敗しました。"
  const AmbiguousVidPidMessage: string := "VID/PIDが一致するデバイスが複数あります。deviceを指定してください。"
  const VidPidNotFoundMessage: string := "指定されたVID/PIDに一致する入力デバイスが見つかりません。"
  const DevicePathMissingPrefix: string := "input.device が存在しません: "
  const DevicePermissionMessage: string := "入力デバイスへのアクセス権限がありません。"
  const DeviceOpenFailedMessage: string := "入力デバイスのオープンに失敗しました。"
  const ListDevicesFailedMessage: string := "入力デバイス一覧の取得に失敗しました。"
  const NoDeviceSpecifiedMessage: string := "input.device または vendor_id/product_id を指定してください。"
  const GrabFailedMessage: string := "入力デバイスの排他取得に失敗しました。"
  const UnsupportedModeMessage: string := "input.mode は evdev のみサポートしています。"
}
