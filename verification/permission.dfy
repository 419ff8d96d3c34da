/**
  * The closed vocabulary of Android permission names the analyzer recognises. A permission
  * is identified with its position in the declaration of `Permission`, so the derived
  * `Ord` (declaration order) is the order on these positions.
  */
module Permissions {
  import opened Common

  /** The number of variants of `Permission`. */
  const Count: nat := 258

  type Permission = i: nat | i < Count

  // The variants, by name.
  const AndroidPermissionAccessAllExternalStorage: Permission := 0
  const AndroidPermissionAccessCheckinProperties: Permission := 1
  const AndroidPermissionAccessCoarseLocation: Permission := 2
  const AndroidPermissionAccessFineLocation: Permission := 3
  const AndroidPermissionAccessLocationExtraCommands: Permission := 4
  const AndroidPermissionAccessMockLocation: Permission := 5
  const AndroidPermissionAccessMtp: Permission := 6
  const AndroidPermissionAccessNetworkState: Permission := 7
  const AndroidPermissionAccessNotificationPolicy: Permission := 8
  const AndroidPermissionAccessWimaxState: Permission := 9
  const AndroidPermissionAccessWifiState: Permission := 10
  const AndroidPermissionAccountManager: Permission := 11
  const AndroidPermissionAsecAccess: Permission := 12
  const AndroidPermissionAsecCreate: Permission := 13
  const AndroidPermissionAsecDestroy: Permission := 14
  const AndroidPermissionAsecMountUnmount: Permission := 15
  const AndroidPermissionAsecRename: Permission := 16
  const AndroidPermissionAuthenticateAccounts: Permission := 17
  const AndroidPermissionBatteryStats: Permission := 18
  const AndroidPermissionBindAccessibilityService: Permission := 19
  const AndroidPermissionBindAppwidget: Permission := 20
  const AndroidPermissionBindCallService: Permission := 21
  const AndroidPermissionBindCarrierMessagingService: Permission := 22
  const AndroidPermissionBindCarrierServices: Permission := 23
  const AndroidPermissionBindChooserTargetService: Permission := 24
  const AndroidPermissionBindDeviceAdmin: Permission := 25
  const AndroidPermissionBindDirectorySearch: Permission := 26
  const AndroidPermissionBindDreamService: Permission := 27
  const AndroidPermissionBindIncallService: Permission := 28
  const AndroidPermissionBindInputMethod: Permission := 29
  const AndroidPermissionBindKeyguardAppwidget: Permission := 30
  const AndroidPermissionBindMidiDeviceService: Permission := 31
  const AndroidPermissionBindNfcService: Permission := 32
  const AndroidPermissionBindNotificationListenerService: Permission := 33
  const AndroidPermissionBindPrintService: Permission := 34
  const AndroidPermissionBindRemoteviews: Permission := 35
  const AndroidPermissionBindTelecomConnectionService: Permission := 36
  const AndroidPermissionBindTextService: Permission := 37
  const AndroidPermissionBindTvInput: Permission := 38
  const AndroidPermissionBindVoiceInteraction: Permission := 39
  const AndroidPermissionBindVpnService: Permission := 40
  const AndroidPermissionBindWallpaper: Permission := 41
  const AndroidPermissionBluetooth: Permission := 42
  const AndroidPermissionBluetoothAdmin: Permission := 43
  const AndroidPermissionBluetoothPrivileged: Permission := 44
  const AndroidPermissionBluetoothStack: Permission := 45
  const AndroidPermissionBodySensors: Permission := 46
  const AndroidPermissionBroadcastPackageRemoved: Permission := 47
  const AndroidPermissionBroadcastSms: Permission := 48
  const AndroidPermissionBroadcastSticky: Permission := 49
  const AndroidPermissionBroadcastWapPush: Permission := 50
  const AndroidPermissionCallPhone: Permission := 51
  const AndroidPermissionCallPrivileged: Permission := 52
  const AndroidPermissionCamera: Permission := 53
  const AndroidPermissionCameraDisableTransmitLed: Permission := 54
  const AndroidPermissionCaptureAudioOutput: Permission := 55
  const AndroidPermissionCaptureSecureVideoOutput: Permission := 56
  const AndroidPermissionCaptureVideoOutput: Permission := 57
  const AndroidPermissionChangeBackgroundDataSetting: Permission := 58
  const AndroidPermissionChangeComponentEnabledState: Permission := 59
  const AndroidPermissionChangeConfiguration: Permission := 60
  const AndroidPermissionChangeNetworkState: Permission := 61
  const AndroidPermissionChangeWimaxState: Permission := 62
  const AndroidPermissionChangeWifiMulticastState: Permission := 63
  const AndroidPermissionChangeWifiState: Permission := 64
  const AndroidPermissionClearAppCache: Permission := 65
  const AndroidPermissionConnectivityInternal: Permission := 66
  const AndroidPermissionControlLocationUpdates: Permission := 67
  const AndroidPermissionDeleteCacheFiles: Permission := 68
  const AndroidPermissionDeletePackages: Permission := 69
  const AndroidPermissionDiagnostic: Permission := 70
  const AndroidPermissionDisableKeyguard: Permission := 71
  const AndroidPermissionDownloadWithoutNotification: Permission := 72
  const AndroidPermissionDump: Permission := 73
  const AndroidPermissionExpandStatusBar: Permission := 74
  const AndroidPermissionFactoryTest: Permission := 75
  const AndroidPermissionFlashlight: Permission := 76
  const AndroidPermissionForceStopPackages: Permission := 77
  const AndroidPermissionGetAccounts: Permission := 78
  const AndroidPermissionGetAccountsPrivileged: Permission := 79
  const AndroidPermissionGetAppOpsStats: Permission := 80
  const AndroidPermissionGetDetailedTasks: Permission := 81
  const AndroidPermissionGetPackageSize: Permission := 82
  const AndroidPermissionGetTasks: Permission := 83
  const AndroidPermissionGlobalSearch: Permission := 84
  const AndroidPermissionGlobalSearchControl: Permission := 85
  const AndroidPermissionHardwareTest: Permission := 86
  const AndroidPermissionInstallLocationProvider: Permission := 87
  const AndroidPermissionInstallPackages: Permission := 88
  const AndroidPermissionInteractAcrossUsers: Permission := 89
  const AndroidPermissionInteractAcrossUsersFull: Permission := 90
  const AndroidPermissionInternet: Permission := 91
  const AndroidPermissionKillBackgroundProcesses: Permission := 92
  const AndroidPermissionLocationHardware: Permission := 93
  const AndroidPermissionLoopRadio: Permission := 94
  const AndroidPermissionManageAccounts: Permission := 95
  const AndroidPermissionManageActivityStacks: Permission := 96
  const AndroidPermissionManageDocuments: Permission := 97
  const AndroidPermissionManageUsb: Permission := 98
  const AndroidPermissionManageUsers: Permission := 99
  const AndroidPermissionMasterClear: Permission := 100
  const AndroidPermissionMediaContentControl: Permission := 101
  const AndroidPermissionModifyAppwidgetBindPermissions: Permission := 102
  const AndroidPermissionModifyAudioSettings: Permission := 103
  const AndroidPermissionModifyPhoneState: Permission := 104
  const AndroidPermissionMountFormatFilesystems: Permission := 105
  const AndroidPermissionMountUnmountFilesystems: Permission := 106
  const AndroidPermissionNetAdmin: Permission := 107
  const AndroidPermissionNetTunneling: Permission := 108
  const AndroidPermissionNfc: Permission := 109
  const AndroidPermissionPackageUsageStats: Permission := 110
  const AndroidPermissionPersistentActivity: Permission := 111
  const AndroidPermissionProcessOutgoingCalls: Permission := 112
  const AndroidPermissionReadCalendar: Permission := 113
  const AndroidPermissionReadCallLog: Permission := 114
  const AndroidPermissionReadCellBroadcasts: Permission := 115
  const AndroidPermissionReadContacts: Permission := 116
  const AndroidPermissionReadDreamState: Permission := 117
  const AndroidPermissionReadExternalStorage: Permission := 118
  const AndroidPermissionReadFrameBuffer: Permission := 119
  const AndroidPermissionReadInputState: Permission := 120
  const AndroidPermissionReadLogs: Permission := 121
  const AndroidPermissionReadPhoneState: Permission := 122
  const AndroidPermissionReadPrivilegedPhoneState: Permission := 123
  const AndroidPermissionReadProfile: Permission := 124
  const AndroidPermissionReadSms: Permission := 125
  const AndroidPermissionReadSocialStream: Permission := 126
  const AndroidPermissionReadSyncSettings: Permission := 127
  const AndroidPermissionReadSyncStats: Permission := 128
  const AndroidPermissionReadUserDictionary: Permission := 129
  const AndroidPermissionReboot: Permission := 130
  const AndroidPermissionReceiveBootCompleted: Permission := 131
  const AndroidPermissionReceiveDataActivityChange: Permission := 132
  const AndroidPermissionReceiveEmergencyBroadcast: Permission := 133
  const AndroidPermissionReceiveMms: Permission := 134
  const AndroidPermissionReceiveSms: Permission := 135
  const AndroidPermissionReceiveWapPush: Permission := 136
  const AndroidPermissionRecordAudio: Permission := 137
  const AndroidPermissionRemoteAudioPlayback: Permission := 138
  const AndroidPermissionRemoveTasks: Permission := 139
  const AndroidPermissionReorderTasks: Permission := 140
  const AndroidPermissionRequestIgnoreBatteryOptimizations: Permission := 141
  const AndroidPermissionRequestInstallPackages: Permission := 142
  const AndroidPermissionRestartPackages: Permission := 143
  const AndroidPermissionRetrieveWindowContent: Permission := 144
  const AndroidPermissionSendRespondViaMessage: Permission := 145
  const AndroidPermissionSendSms: Permission := 146
  const AndroidPermissionSetAlwaysFinish: Permission := 147
  const AndroidPermissionSetAnimationScale: Permission := 148
  const AndroidPermissionSetDebugApp: Permission := 149
  const AndroidPermissionSetPreferredApplications: Permission := 150
  const AndroidPermissionSetProcessLimit: Permission := 151
  const AndroidPermissionSetScreenCompatibility: Permission := 152
  const AndroidPermissionSetTime: Permission := 153
  const AndroidPermissionSetTimeZone: Permission := 154
  const AndroidPermissionSetWallpaper: Permission := 155
  const AndroidPermissionSetWallpaperComponent: Permission := 156
  const AndroidPermissionSetWallpaperHints: Permission := 157
  const AndroidPermissionSignalPersistentProcesses: Permission := 158
  const AndroidPermissionStartAnyActivity: Permission := 159
  const AndroidPermissionStatusBar: Permission := 160
  const AndroidPermissionSubscribedFeedsRead: Permission := 161
  const AndroidPermissionSystemAlertWindow: Permission := 162
  const AndroidPermissionSubscribedFeedsWrite: Permission := 163
  const AndroidPermissionTransmitIr: Permission := 164
  const AndroidPermissionUpdateDeviceStats: Permission := 165
  const AndroidPermissionUseCredentials: Permission := 166
  const AndroidPermissionUseFingerprint: Permission := 167
  const AndroidPermissionUseSip: Permission := 168
  const AndroidPermissionVibrate: Permission := 169
  const AndroidPermissionWakeLock: Permission := 170
  const AndroidPermissionWriteApnSettings: Permission := 171
  const AndroidPermissionWriteCalendar: Permission := 172
  const AndroidPermissionWriteCallLog: Permission := 173
  const AndroidPermissionWriteContacts: Permission := 174
  const AndroidPermissionWriteDreamState: Permission := 175
  const AndroidPermissionWriteExternalStorage: Permission := 176
  const AndroidPermissionWriteGservices: Permission := 177
  const AndroidPermissionWriteMediaStorage: Permission := 178
  const AndroidPermissionWriteProfile: Permission := 179
  const AndroidPermissionWriteSecureSettings: Permission := 180
  const AndroidPermissionWriteSettings: Permission := 181
  const AndroidPermissionWriteSms: Permission := 182
  const AndroidPermissionWriteSocialStream: Permission := 183
  const AndroidPermissionWriteSyncSettings: Permission := 184
  const AndroidPermissionWriteUserDictionary: Permission := 185
  const ComAndroidAlarmPermissionSetAlarm: Permission := 186
  const ComAndroidBrowserPermissionReadHistoryBookmarks: Permission := 187
  const ComAndroidBrowserPermissionWriteHistoryBookmarks: Permission := 188
  const ComAndroidEmailPermissionReadAttachment: Permission := 189
  const ComAndroidLauncherPermissionInstallShortcut: Permission := 190
  const ComAndroidLauncherPermissionPreloadWorkspace: Permission := 191
  const ComAndroidLauncherPermissionReadSettings: Permission := 192
  const ComAndroidLauncherPermissionUninstallShortcut: Permission := 193
  const ComAndroidLauncherPermissionWriteSettings: Permission := 194
  const ComAndroidVendingCheckLicense: Permission := 195
  const ComAndroidVoicemailPermissionAddVoicemail: Permission := 196
  const ComAndroidVoicemailPermissionReadVoicemail: Permission := 197
  const ComAndroidVoicemailPermissionReadWriteAllVoicemail: Permission := 198
  const ComAndroidVoicemailPermissionWriteVoicemail: Permission := 199
  const ComGoogleAndroidC2dmPermissionReceive: Permission := 200
  const ComGoogleAndroidC2dmPermissionSend: Permission := 201
  const ComGoogleAndroidGmsPermissionActivityRecognition: Permission := 202
  const ComGoogleAndroidGoogleappsPermissionGoogleAuth: Permission := 203
  const ComGoogleAndroidGoogleappsPermissionGoogleAuthAllServices: Permission := 204
  const ComGoogleAndroidGoogleappsPermissionGoogleAuthOtherServices: Permission := 205
  const ComGoogleAndroidGoogleappsPermissionGoogleAuthYoutubeuser: Permission := 206
  const ComGoogleAndroidGoogleappsPermissionGoogleAuthAdsense: Permission := 207
  const ComGoogleAndroidGoogleappsPermissionGoogleAuthAdwords: Permission := 208
  const ComGoogleAndroidGoogleappsPermissionGoogleAuthAh: Permission := 209
  const ComGoogleAndroidGoogleappsPermissionGoogleAuthAndroid: Permission := 210
  const ComGoogleAndroidGoogleappsPermissionGoogleAuthAndroidsecure: Permission := 211
  const ComGoogleAndroidGoogleappsPermissionGoogleAuthBlogger: Permission := 212
  const ComGoogleAndroidGoogleappsPermissionGoogleAuthCl: Permission := 213
  const ComGoogleAndroidGoogleappsPermissionGoogleAuthCp: Permission := 214
  const ComGoogleAndroidGoogleappsPermissionGoogleAuthDodgeball: Permission := 215
  const ComGoogleAndroidGoogleappsPermissionGoogleAuthDoraemon: Permission := 216
  const ComGoogleAndroidGoogleappsPermissionGoogleAuthFinance: Permission := 217
  const ComGoogleAndroidGoogleappsPermissionGoogleAuthGbase: Permission := 218
  const ComGoogleAndroidGoogleappsPermissionGoogleAuthGeowiki: Permission := 219
  const ComGoogleAndroidGoogleappsPermissionGoogleAuthGoannaMobile: Permission := 220
  const ComGoogleAndroidGoogleappsPermissionGoogleAuthGrandcentral: Permission := 221
  const ComGoogleAndroidGoogleappsPermissionGoogleAuthGroups2: Permission := 222
  const ComGoogleAndroidGoogleappsPermissionGoogleAuthHealth: Permission := 223
  const ComGoogleAndroidGoogleappsPermissionGoogleAuthIg: Permission := 224
  const ComGoogleAndroidGoogleappsPermissionGoogleAuthJotspot: Permission := 225
  const ComGoogleAndroidGoogleappsPermissionGoogleAuthKnol: Permission := 226
  const ComGoogleAndroidGoogleappsPermissionGoogleAuthLh2: Permission := 227
  const ComGoogleAndroidGoogleappsPermissionGoogleAuthLocal: Permission := 228
  const ComGoogleAndroidGoogleappsPermissionGoogleAuthMail: Permission := 229
  const ComGoogleAndroidGoogleappsPermissionGoogleAuthMobile: Permission := 230
  const ComGoogleAndroidGoogleappsPermissionGoogleAuthNews: Permission := 231
  const ComGoogleAndroidGoogleappsPermissionGoogleAuthNotebook: Permission := 232
  const ComGoogleAndroidGoogleappsPermissionGoogleAuthOrkut: Permission := 233
  const ComGoogleAndroidGoogleappsPermissionGoogleAuthPanoramio: Permission := 234
  const ComGoogleAndroidGoogleappsPermissionGoogleAuthPrint: Permission := 235
  const ComGoogleAndroidGoogleappsPermissionGoogleAuthReader: Permission := 236
  const ComGoogleAndroidGoogleappsPermissionGoogleAuthSierra: Permission := 237
  const ComGoogleAndroidGoogleappsPermissionGoogleAuthSierraqa: Permission := 238
  const ComGoogleAndroidGoogleappsPermissionGoogleAuthSierrasandbox: Permission := 239
  const ComGoogleAndroidGoogleappsPermissionGoogleAuthSitemaps: Permission := 240
  const ComGoogleAndroidGoogleappsPermissionGoogleAuthSpeech: Permission := 241
  const ComGoogleAndroidGoogleappsPermissionGoogleAuthSpeechpersonalization: Permission := 242
  const ComGoogleAndroidGoogleappsPermissionGoogleAuthTalk: Permission := 243
  const ComGoogleAndroidGoogleappsPermissionGoogleAuthWifi: Permission := 244
  const ComGoogleAndroidGoogleappsPermissionGoogleAuthWise: Permission := 245
  const ComGoogleAndroidGoogleappsPermissionGoogleAuthWritely: Permission := 246
  const ComGoogleAndroidGoogleappsPermissionGoogleAuthYoutube: Permission := 247
  const ComGoogleAndroidGtalkservicePermissionGtalkService: Permission := 248
  const ComGoogleAndroidGtalkservicePermissionSendHeartbeat: Permission := 249
  const ComGoogleAndroidPermissionBroadcastDataMessage: Permission := 250
  const ComGoogleAndroidProvidersGsfPermissionReadGservices: Permission := 251
  const ComGoogleAndroidProvidersTalkPermissionReadOnly: Permission := 252
  const ComGoogleAndroidProvidersTalkPermissionWriteOnly: Permission := 253
  const ComGoogleAndroidXmppPermissionBroadcast: Permission := 254
  const ComGoogleAndroidXmppPermissionSendReceive: Permission := 255
  const ComGoogleAndroidXmppPermissionUseXmppEndpoint: Permission := 256
  const ComGoogleAndroidXmppPermissionXmppEndpointBroadcast: Permission := 257

  /**
    * `as_str`: the name Android gives the permission. The table is laid out as a search
    * tree over the variant position; its leaves, left to right, are the names in
    * declaration order.
    */
  function AsStr(p: Permission): string {
    if p < 129 then
      if p < 64 then
        if p < 32 then
          if p < 16 then
            if p < 8 then
              if p < 4 then
                if p < 2 then
                  if p < 1 then
                    "android.permission.ACCESS_ALL_EXTERNAL_STORAGE"
                  else
                    "android.permission.ACCESS_CHECKIN_PROPERTIES"
                else
                  if p < 3 then
                    "android.permission.ACCESS_COARSE_LOCATION"
                  else
                    "android.permission.ACCESS_FINE_LOCATION"
              else
                if p < 6 then
                  if p < 5 then
                    "android.permission.ACCESS_LOCATION_EXTRA_COMMANDS"
                  else
                    "android.permission.ACCESS_MOCK_LOCATION"
                else
                  if p < 7 then
                    "android.permission.ACCESS_MTP"
                  else
                    "android.permission.ACCESS_NETWORK_STATE"
            else
              if p < 12 then
                if p < 10 then
                  if p < 9 then
                    "android.permission.ACCESS_NOTIFICATION_POLICY"
                  else
                    "android.permission.ACCESS_WIMAX_STATE"
                else
                  if p < 11 then
                    "android.permission.ACCESS_WIFI_STATE"
                  else
                    "android.permission.ACCOUNT_MANAGER"
              else
                if p < 14 then
                  if p < 13 then
                    "android.permission.ASEC_ACCESS"
                  else
                    "android.permission.ASEC_CREATE"
                else
                  if p < 15 then
                    "android.permission.ASEC_DESTROY"
                  else
                    "android.permission.ASEC_MOUNT_UNMOUNT"
          else
            if p < 24 then
              if p < 20 then
                if p < 18 then
                  if p < 17 then
                    "android.permission.ASEC_RENAME"
                  else
                    "android.permission.AUTHENTICATE_ACCOUNTS"
                else
                  if p < 19 then
                    "android.permission.BATTERY_STATS"
                  else
                    "android.permission.BIND_ACCESSIBILITY_SERVICE"
              else
                if p < 22 then
                  if p < 21 then
                    "android.permission.BIND_APPWIDGET"
                  else
                    "android.permission.BIND_CALL_SERVICE"
                else
                  if p < 23 then
                    "android.permission.BIND_CARRIER_MESSAGING_SERVICE"
                  else
                    "android.permission.BIND_CARRIER_SERVICES"
            else
              if p < 28 then
                if p < 26 then
                  if p < 25 then
                    "android.permission.BIND_CHOOSER_TARGET_SERVICE"
                  else
                    "android.permission.BIND_DEVICE_ADMIN"
                else
                  if p < 27 then
                    "android.permission.BIND_DIRECTORY_SEARCH"
                  else
                    "android.permission.BIND_DREAM_SERVICE"
              else
                if p < 30 then
                  if p < 29 then
                    "android.permission.BIND_INCALL_SERVICE"
                  else
                    "android.permission.BIND_INPUT_METHOD"
                else
                  if p < 31 then
                    "android.permission.BIND_KEYGUARD_APPWIDGET"
                  else
                    "android.permission.BIND_MIDI_DEVICE_SERVICE"
        else
          if p < 48 then
            if p < 40 then
              if p < 36 then
                if p < 34 then
                  if p < 33 then
                    "android.permission.BIND_NFC_SERVICE"
                  else
                    "android.permission.BIND_NOTIFICATION_LISTENER_SERVICE"
                else
                  if p < 35 then
                    "android.permission.BIND_PRINT_SERVICE"
                  else
                    "android.permission.BIND_REMOTEVIEWS"
              else
                if p < 38 then
                  if p < 37 then
                    "android.permission.BIND_TELECOM_CONNECTION_SERVICE"
                  else
                    "android.permission.BIND_TEXT_SERVICE"
                else
                  if p < 39 then
                    "android.permission.BIND_TV_INPUT"
                  else
                    "android.permission.BIND_VOICE_INTERACTION"
            else
              if p < 44 then
                if p < 42 then
                  if p < 41 then
                    "android.permission.BIND_VPN_SERVICE"
                  else
                    "android.permission.BIND_WALLPAPER"
                else
                  if p < 43 then
                    "android.permission.BLUETOOTH"
                  else
                    "android.permission.BLUETOOTH_ADMIN"
              else
                if p < 46 then
                  if p < 45 then
                    "android.permission.BLUETOOTH_PRIVILEGED"
                  else
                    "android.permission.BLUETOOTH_STACK"
                else
                  if p < 47 then
                    "android.permission.BODY_SENSORS"
                  else
                    "android.permission.BROADCAST_PACKAGE_REMOVED"
          else
            if p < 56 then
              if p < 52 then
                if p < 50 then
                  if p < 49 then
                    "android.permission.BROADCAST_SMS"
                  else
                    "android.permission.BROADCAST_STICKY"
                else
                  if p < 51 then
                    "android.permission.BROADCAST_WAP_PUSH"
                  else
                    "android.permission.CALL_PHONE"
              else
                if p < 54 then
                  if p < 53 then
                    "android.permission.CALL_PRIVILEGED"
                  else
                    "android.permission.CAMERA"
                else
                  if p < 55 then
                    "android.permission.CAMERA_DISABLE_TRANSMIT_LED"
                  else
                    "android.permission.CAPTURE_AUDIO_OUTPUT"
            else
              if p < 60 then
                if p < 58 then
                  if p < 57 then
                    "android.permission.CAPTURE_SECURE_VIDEO_OUTPUT"
                  else
                    "android.permission.CAPTURE_VIDEO_OUTPUT"
                else
                  if p < 59 then
                    "android.permission.CHANGE_BACKGROUND_DATA_SETTING"
                  else
                    "android.permission.CHANGE_COMPONENT_ENABLED_STATE"
              else
                if p < 62 then
                  if p < 61 then
                    "android.permission.CHANGE_CONFIGURATION"
                  else
                    "android.permission.CHANGE_NETWORK_STATE"
                else
                  if p < 63 then
                    "android.permission.CHANGE_WIMAX_STATE"
                  else
                    "android.permission.CHANGE_WIFI_MULTICAST_STATE"
      else
        if p < 96 then
          if p < 80 then
            if p < 72 then
              if p < 68 then
                if p < 66 then
                  if p < 65 then
                    "android.permission.CHANGE_WIFI_STATE"
                  else
                    "android.permission.CLEAR_APP_CACHE"
                else
                  if p < 67 then
                    "android.permission.CONNECTIVITY_INTERNAL"
                  else
                    "android.permission.CONTROL_LOCATION_UPDATES"
              else
                if p < 70 then
                  if p < 69 then
                    "android.permission.DELETE_CACHE_FILES"
                  else
                    "android.permission.DELETE_PACKAGES"
                else
                  if p < 71 then
                    "android.permission.DIAGNOSTIC"
                  else
                    "android.permission.DISABLE_KEYGUARD"
            else
              if p < 76 then
                if p < 74 then
                  if p < 73 then
                    "android.permission.DOWNLOAD_WITHOUT_NOTIFICATION"
                  else
                    "android.permission.DUMP"
                else
                  if p < 75 then
                    "android.permission.EXPAND_STATUS_BAR"
                  else
                    "android.permission.FACTORY_TEST"
              else
                if p < 78 then
                  if p < 77 then
                    "android.permission.FLASHLIGHT"
                  else
                    "android.permission.FORCE_STOP_PACKAGES"
                else
                  if p < 79 then
                    "android.permission.GET_ACCOUNTS"
                  else
                    "android.permission.GET_ACCOUNTS_PRIVILEGED"
          else
            if p < 88 then
              if p < 84 then
                if p < 82 then
                  if p < 81 then
                    "android.permission.GET_APP_OPS_STATS"
                  else
                    "android.permission.GET_DETAILED_TASKS"
                else
                  if p < 83 then
                    "android.permission.GET_PACKAGE_SIZE"
                  else
                    "android.permission.GET_TASKS"
              else
                if p < 86 then
                  if p < 85 then
                    "android.permission.GLOBAL_SEARCH"
                  else
                    "android.permission.GLOBAL_SEARCH_CONTROL"
                else
                  if p < 87 then
                    "android.permission.HARDWARE_TEST"
                  else
                    "android.permission.INSTALL_LOCATION_PROVIDER"
            else
              if p < 92 then
                if p < 90 then
                  if p < 89 then
                    "android.permission.INSTALL_PACKAGES"
                  else
                    "android.permission.INTERACT_ACROSS_USERS"
                else
                  if p < 91 then
                    "android.permission.INTERACT_ACROSS_USERS_FULL"
                  else
                    "android.permission.INTERNET"
              else
                if p < 94 then
                  if p < 93 then
                    "android.permission.KILL_BACKGROUND_PROCESSES"
                  else
                    "android.permission.LOCATION_HARDWARE"
                else
                  if p < 95 then
                    "android.permission.LOOP_RADIO"
                  else
                    "android.permission.MANAGE_ACCOUNTS"
        else
          if p < 112 then
            if p < 104 then
              if p < 100 then
                if p < 98 then
                  if p < 97 then
                    "android.permission.MANAGE_ACTIVITY_STACKS"
                  else
                    "android.permission.MANAGE_DOCUMENTS"
                else
                  if p < 99 then
                    "android.permission.MANAGE_USB"
                  else
                    "android.permission.MANAGE_USERS"
              else
                if p < 102 then
                  if p < 101 then
                    "android.permission.MASTER_CLEAR"
                  else
                    "android.permission.MEDIA_CONTENT_CONTROL"
                else
                  if p < 103 then
                    "android.permission.MODIFY_APPWIDGET_BIND_PERMISSIONS"
                  else
                    "android.permission.MODIFY_AUDIO_SETTINGS"
            else
              if p < 108 then
                if p < 106 then
                  if p < 105 then
                    "android.permission.MODIFY_PHONE_STATE"
                  else
                    "android.permission.MOUNT_FORMAT_FILESYSTEMS"
                else
                  if p < 107 then
                    "android.permission.MOUNT_UNMOUNT_FILESYSTEMS"
                  else
                    "android.permission.NET_ADMIN"
              else
                if p < 110 then
                  if p < 109 then
                    "android.permission.NET_TUNNELING"
                  else
                    "android.permission.NFC"
                else
                  if p < 111 then
                    "android.permission.PACKAGE_USAGE_STATS"
                  else
                    "android.permission.PERSISTENT_ACTIVITY"
          else
            if p < 120 then
              if p < 116 then
                if p < 114 then
                  if p < 113 then
                    "android.permission.PROCESS_OUTGOING_CALLS"
                  else
                    "android.permission.READ_CALENDAR"
                else
                  if p < 115 then
                    "android.permission.READ_CALL_LOG"
                  else
                    "android.permission.READ_CELL_BROADCASTS"
              else
                if p < 118 then
                  if p < 117 then
                    "android.permission.READ_CONTACTS"
                  else
                    "android.permission.READ_DREAM_STATE"
                else
                  if p < 119 then
                    "android.permission.READ_EXTERNAL_STORAGE"
                  else
                    "android.permission.READ_FRAME_BUFFER"
            else
              if p < 124 then
                if p < 122 then
                  if p < 121 then
                    "android.permission.READ_INPUT_STATE"
                  else
                    "android.permission.READ_LOGS"
                else
                  if p < 123 then
                    "android.permission.READ_PHONE_STATE"
                  else
                    "android.permission.READ_PRIVILEGED_PHONE_STATE"
              else
                if p < 126 then
                  if p < 125 then
                    "android.permission.READ_PROFILE"
                  else
                    "android.permission.READ_SMS"
                else
                  if p < 127 then
                    "android.permission.READ_SOCIAL_STREAM"
                  else
                    if p < 128 then
                      "android.permission.READ_SYNC_SETTINGS"
                    else
                      "android.permission.READ_SYNC_STATS"
    else
      if p < 193 then
        if p < 161 then
          if p < 145 then
            if p < 137 then
              if p < 133 then
                if p < 131 then
                  if p < 130 then
                    "android.permission.READ_USER_DICTIONARY"
                  else
                    "android.permission.REBOOT"
                else
                  if p < 132 then
                    "android.permission.RECEIVE_BOOT_COMPLETED"
                  else
                    "android.permission.RECEIVE_DATA_ACTIVITY_CHANGE"
              else
                if p < 135 then
                  if p < 134 then
                    "android.permission.RECEIVE_EMERGENCY_BROADCAST"
                  else
                    "android.permission.RECEIVE_MMS"
                else
                  if p < 136 then
                    "android.permission.RECEIVE_SMS"
                  else
                    "android.permission.RECEIVE_WAP_PUSH"
            else
              if p < 141 then
                if p < 139 then
                  if p < 138 then
                    "android.permission.RECORD_AUDIO"
                  else
                    "android.permission.REMOTE_AUDIO_PLAYBACK"
                else
                  if p < 140 then
                    "android.permission.REMOVE_TASKS"
                  else
                    "android.permission.REORDER_TASKS"
              else
                if p < 143 then
                  if p < 142 then
                    "android.permission.REQUEST_IGNORE_BATTERY_OPTIMIZATIONS"
                  else
                    "android.permission.REQUEST_INSTALL_PACKAGES"
                else
                  if p < 144 then
                    "android.permission.RESTART_PACKAGES"
                  else
                    "android.permission.RETRIEVE_WINDOW_CONTENT"
          else
            if p < 153 then
              if p < 149 then
                if p < 147 then
                  if p < 146 then
                    "android.permission.SEND_RESPOND_VIA_MESSAGE"
                  else
                    "android.permission.SEND_SMS"
                else
                  if p < 148 then
                    "android.permission.SET_ALWAYS_FINISH"
                  else
                    "android.permission.SET_ANIMATION_SCALE"
              else
                if p < 151 then
                  if p < 150 then
                    "android.permission.SET_DEBUG_APP"
                  else
                    "android.permission.SET_PREFERRED_APPLICATIONS"
                else
                  if p < 152 then
                    "android.permission.SET_PROCESS_LIMIT"
                  else
                    "android.permission.SET_SCREEN_COMPATIBILITY"
            else
              if p < 157 then
                if p < 155 then
                  if p < 154 then
                    "android.permission.SET_TIME"
                  else
                    "android.permission.SET_TIME_ZONE"
                else
                  if p < 156 then
                    "android.permission.SET_WALLPAPER"
                  else
                    "android.permission.SET_WALLPAPER_COMPONENT"
              else
                if p < 159 then
                  if p < 158 then
                    "android.permission.SET_WALLPAPER_HINTS"
                  else
                    "android.permission.SIGNAL_PERSISTENT_PROCESSES"
                else
                  if p < 160 then
                    "android.permission.START_ANY_ACTIVITY"
                  else
                    "android.permission.STATUS_BAR"
        else
          if p < 177 then
            if p < 169 then
              if p < 165 then
                if p < 163 then
                  if p < 162 then
                    "android.permission.SUBSCRIBED_FEEDS_READ"
                  else
                    "android.permission.SYSTEM_ALERT_WINDOW"
                else
                  if p < 164 then
                    "android.permission.SUBSCRIBED_FEEDS_WRITE"
                  else
                    "android.permission.TRANSMIT_IR"
              else
                if p < 167 then
                  if p < 166 then
                    "android.permission.UPDATE_DEVICE_STATS"
                  else
                    "android.permission.USE_CREDENTIALS"
                else
                  if p < 168 then
                    "android.permission.USE_FINGERPRINT"
                  else
                    "android.permission.USE_SIP"
            else
              if p < 173 then
                if p < 171 then
                  if p < 170 then
                    "android.permission.VIBRATE"
                  else
                    "android.permission.WAKE_LOCK"
                else
                  if p < 172 then
                    "android.permission.WRITE_APN_SETTINGS"
                  else
                    "android.permission.WRITE_CALENDAR"
              else
                if p < 175 then
                  if p < 174 then
                    "android.permission.WRITE_CALL_LOG"
                  else
                    "android.permission.WRITE_CONTACTS"
                else
                  if p < 176 then
                    "android.permission.WRITE_DREAM_STATE"
                  else
                    "android.permission.WRITE_EXTERNAL_STORAGE"
          else
            if p < 185 then
              if p < 181 then
                if p < 179 then
                  if p < 178 then
                    "android.permission.WRITE_GSERVICES"
                  else
                    "android.permission.WRITE_MEDIA_STORAGE"
                else
                  if p < 180 then
                    "android.permission.WRITE_PROFILE"
                  else
                    "android.permission.WRITE_SECURE_SETTINGS"
              else
                if p < 183 then
                  if p < 182 then
                    "android.permission.WRITE_SETTINGS"
                  else
                    "android.permission.WRITE_SMS"
                else
                  if p < 184 then
                    "android.permission.WRITE_SOCIAL_STREAM"
                  else
                    "android.permission.WRITE_SYNC_SETTINGS"
            else
              if p < 189 then
                if p < 187 then
                  if p < 186 then
                    "android.permission.WRITE_USER_DICTIONARY"
                  else
                    "com.android.alarm.permission.SET_ALARM"
                else
                  if p < 188 then
                    "com.android.browser.permission.READ_HISTORY_BOOKMARKS"
                  else
                    "com.android.browser.permission.WRITE_HISTORY_BOOKMARKS"
              else
                if p < 191 then
                  if p < 190 then
                    "com.android.email.permission.READ_ATTACHMENT"
                  else
                    "com.android.launcher.permission.INSTALL_SHORTCUT"
                else
                  if p < 192 then
                    "com.android.launcher.permission.PRELOAD_WORKSPACE"
                  else
                    "com.android.launcher.permission.READ_SETTINGS"
      else
        if p < 225 then
          if p < 209 then
            if p < 201 then
              if p < 197 then
                if p < 195 then
                  if p < 194 then
                    "com.android.launcher.permission.UNINSTALL_SHORTCUT"
                  else
                    "com.android.launcher.permission.WRITE_SETTINGS"
                else
                  if p < 196 then
                    "com.android.vending.CHECK_LICENSE"
                  else
                    "com.android.voicemail.permission.ADD_VOICEMAIL"
              else
                if p < 199 then
                  if p < 198 then
                    "com.android.voicemail.permission.READ_VOICEMAIL"
                  else
                    "com.android.voicemail.permission.READ_WRITE_ALL_VOICEMAIL"
                else
                  if p < 200 then
                    "com.android.voicemail.permission.WRITE_VOICEMAIL"
                  else
                    "com.google.android.c2dm.permission.RECEIVE"
            else
              if p < 205 then
                if p < 203 then
                  if p < 202 then
                    "com.google.android.c2dm.permission.SEND"
                  else
                    "com.google.android.gms.permission.ACTIVITY_RECOGNITION"
                else
                  if p < 204 then
                    "com.google.android.googleapps.permission.GOOGLE_AUTH"
                  else
                    "com.google.android.googleapps.permission.GOOGLE_AUTH.ALL_SERVICES"
              else
                if p < 207 then
                  if p < 206 then
                    "com.google.android.googleapps.permission.GOOGLE_AUTH.OTHER_SERVICES"
                  else
                    "com.google.android.googleapps.permission.GOOGLE_AUTH.YouTubeUser"
                else
                  if p < 208 then
                    "com.google.android.googleapps.permission.GOOGLE_AUTH.adsense"
                  else
                    "com.google.android.googleapps.permission.GOOGLE_AUTH.adwords"
          else
            if p < 217 then
              if p < 213 then
                if p < 211 then
                  if p < 210 then
                    "com.google.android.googleapps.permission.GOOGLE_AUTH.ah"
                  else
                    "com.google.android.googleapps.permission.GOOGLE_AUTH.android"
                else
                  if p < 212 then
                    "com.google.android.googleapps.permission.GOOGLE_AUTH.androidsecure"
                  else
                    "com.google.android.googleapps.permission.GOOGLE_AUTH.blogger"
              else
                if p < 215 then
                  if p < 214 then
                    "com.google.android.googleapps.permission.GOOGLE_AUTH.cl"
                  else
                    "com.google.android.googleapps.permission.GOOGLE_AUTH.cp"
                else
                  if p < 216 then
                    "com.google.android.googleapps.permission.GOOGLE_AUTH.dodgeball"
                  else
                    "com.google.android.googleapps.permission.GOOGLE_AUTH.doraemon"
            else
              if p < 221 then
                if p < 219 then
                  if p < 218 then
                    "com.google.android.googleapps.permission.GOOGLE_AUTH.finance"
                  else
                    "com.google.android.googleapps.permission.GOOGLE_AUTH.gbase"
                else
                  if p < 220 then
                    "com.google.android.googleapps.permission.GOOGLE_AUTH.geowiki"
                  else
                    "com.google.android.googleapps.permission.GOOGLE_AUTH.goanna_mobile"
              else
                if p < 223 then
                  if p < 222 then
                    "com.google.android.googleapps.permission.GOOGLE_AUTH.grandcentral"
                  else
                    "com.google.android.googleapps.permission.GOOGLE_AUTH.groups2"
                else
                  if p < 224 then
                    "com.google.android.googleapps.permission.GOOGLE_AUTH.health"
                  else
                    "com.google.android.googleapps.permission.GOOGLE_AUTH.ig"
        else
          if p < 241 then
            if p < 233 then
              if p < 229 then
                if p < 227 then
                  if p < 226 then
                    "com.google.android.googleapps.permission.GOOGLE_AUTH.jotspot"
                  else
                    "com.google.android.googleapps.permission.GOOGLE_AUTH.knol"
                else
                  if p < 228 then
                    "com.google.android.googleapps.permission.GOOGLE_AUTH.lh2"
                  else
                    "com.google.android.googleapps.permission.GOOGLE_AUTH.local"
              else
                if p < 231 then
                  if p < 230 then
                    "com.google.android.googleapps.permission.GOOGLE_AUTH.mail"
                  else
                    "com.google.android.googleapps.permission.GOOGLE_AUTH.mobile"
                else
                  if p < 232 then
                    "com.google.android.googleapps.permission.GOOGLE_AUTH.news"
                  else
                    "com.google.android.googleapps.permission.GOOGLE_AUTH.notebook"
            else
              if p < 237 then
                if p < 235 then
                  if p < 234 then
                    "com.google.android.googleapps.permission.GOOGLE_AUTH.orkut"
                  else
                    "com.google.android.googleapps.permission.GOOGLE_AUTH.panoramio"
                else
                  if p < 236 then
                    "com.google.android.googleapps.permission.GOOGLE_AUTH.print"
                  else
                    "com.google.android.googleapps.permission.GOOGLE_AUTH.reader"
              else
                if p < 239 then
                  if p < 238 then
                    "com.google.android.googleapps.permission.GOOGLE_AUTH.sierra"
                  else
                    "com.google.android.googleapps.permission.GOOGLE_AUTH.sierraqa"
                else
                  if p < 240 then
                    "com.google.android.googleapps.permission.GOOGLE_AUTH.sierrasandbox"
                  else
                    "com.google.android.googleapps.permission.GOOGLE_AUTH.sitemaps"
          else
            if p < 249 then
              if p < 245 then
                if p < 243 then
                  if p < 242 then
                    "com.google.android.googleapps.permission.GOOGLE_AUTH.speech"
                  else
                    "com.google.android.googleapps.permission.GOOGLE_AUTH.speechpersonalization"
                else
                  if p < 244 then
                    "com.google.android.googleapps.permission.GOOGLE_AUTH.talk"
                  else
                    "com.google.android.googleapps.permission.GOOGLE_AUTH.wifi"
              else
                if p < 247 then
                  if p < 246 then
                    "com.google.android.googleapps.permission.GOOGLE_AUTH.wise"
                  else
                    "com.google.android.googleapps.permission.GOOGLE_AUTH.writely"
                else
                  if p < 248 then
                    "com.google.android.googleapps.permission.GOOGLE_AUTH.youtube"
                  else
                    "com.google.android.gtalkservice.permission.GTALK_SERVICE"
            else
              if p < 253 then
                if p < 251 then
                  if p < 250 then
                    "com.google.android.gtalkservice.permission.SEND_HEARTBEAT"
                  else
                    "com.google.android.permission.BROADCAST_DATA_MESSAGE"
                else
                  if p < 252 then
                    "com.google.android.providers.gsf.permission.READ_GSERVICES"
                  else
                    "com.google.android.providers.talk.permission.READ_ONLY"
              else
                if p < 255 then
                  if p < 254 then
                    "com.google.android.providers.talk.permission.WRITE_ONLY"
                  else
                    "com.google.android.xmpp.permission.BROADCAST"
                else
                  if p < 256 then
                    "com.google.android.xmpp.permission.SEND_RECEIVE"
                  else
                    if p < 257 then
                      "com.google.android.xmpp.permission.USE_XMPP_ENDPOINT"
                    else
                      "com.google.android.xmpp.permission.XMPP_ENDPOINT_BROADCAST"
  }

  /** The error `try_from` reports for a name outside the table. */
  datatype PermissionError = UnknownPermission(name: string)

  /**
    * The arms of `try_from` from position `i` on, tried in declaration order: the first
    * variant whose name is `s`, or the unknown-permission error.
    */
  function FindFrom(s: string, i: nat): (r: Result<Permission, PermissionError>)
    requires i <= Count
    ensures r.Ok? ==> i <= r.value && AsStr(r.value) == s
    ensures r.Ok? ==> forall q: Permission :: i <= q < r.value ==> AsStr(q) != s
    ensures r.Err? ==> r.error == UnknownPermission(s)
    ensures r.Err? ==> forall q: Permission :: i <= q ==> AsStr(q) != s
    decreases Count - i
  {
    if i == Count then Err(UnknownPermission(s))
    else if AsStr(i) == s then Ok(i)
    else FindFrom(s, i + 1)
  }

  /**
    * `TryFrom<&[u8]>`: the permission whose name is exactly `s` (case matters), or an
    * error naming `s`.
    */
  function TryFrom(s: string): (r: Result<Permission, PermissionError>)
    ensures r.Ok? ==> AsStr(r.value) == s
    ensures r.Err? <==> forall q: Permission :: AsStr(q) != s
    ensures r.Err? ==> r.error == UnknownPermission(s)
  {
    FindFrom(s, 0)
  }

  /** `FromStr`: the same lookup on the bytes of the text. */
  function FromStr(s: string): (r: Result<Permission, PermissionError>)
    ensures forall p: Permission :: r == Ok(p) <==> AsStr(p) == s
  {
    var r := TryFrom(s);
    assert forall p: Permission :: r == Ok(p) <==> AsStr(p) == s by {
      forall p: Permission ensures r == Ok(p) <==> AsStr(p) == s {
        if AsStr(p) == s { AsStrInjective(p, r.value); }
      }
    }
    r
  }

  /** What `Deserialize` reports: a string that names no permission becomes a custom error. */
  datatype DeserializeError = NotAString | Custom(cause: PermissionError)

  /** A value of the serialized document, as far as `Deserialize` looks at it. */
  datatype Serialized = Str(text: string) | Other

  /** `Deserialize`: a string, looked up with `try_from`. */
  function Deserialize(v: Serialized): (r: Result<Permission, DeserializeError>)
    ensures v.Other? ==> r == Err(NotAString)
    ensures v.Str? ==> (r.Ok? <==> TryFrom(v.text).Ok?)
    ensures v.Str? && r.Ok? ==> AsStr(r.value) == v.text
    ensures v.Str? && r.Err? ==> r.error == Custom(UnknownPermission(v.text))
  {
    match v
    case Other => Err(NotAString)
    case Str(s) =>
      match TryFrom(s)
      case Ok(p) => Ok(p)
      case Err(e) => Err(Custom(e))
  }

  /** A perfect hash of the permission table: the position of a table entry, looked up from its length and a few of its trailing characters. */
  ghost function Probe(s: string): int {
    match |s|
    case 22 => 109
    case 23 => 73
    case 25 => (
      match s[|s| - 1]
        case 'A' => 53
        case 'T' => 130
        case _ => -1
    )
    case 26 => (
      match s[|s| - 1]
        case 'E' => 169
        case 'P' => 168
        case _ => -1
    )
    case 27 => (
      match s[|s| - 1]
        case 'E' => 153
        case 'S' => (
          match s[|s| - 6]
          case 'A' => 125
          case 'N' => 146
          case _ => -1
        )
        case 'T' => 91
        case _ => -1
    )
    case 28 => (
      match s[|s| - 2]
        case 'C' => 170
        case 'G' => 121
        case 'I' => 107
        case 'K' => 83
        case 'M' => 182
        case 'T' => 42
        case _ => -1
    )
    case 29 => (
      match s[|s| - 1]
        case 'B' => 98
        case 'C' => 70
        case 'E' => 51
        case 'O' => 94
        case 'P' => 6
        case 'R' => 160
        case 'T' => 76
        case _ => -1
    )
    case 30 => (
      match s[|s| - 3]
        case 'A' => (
          match s[|s| - 2]
          case 'M' => 16
          case 'T' => 13
          case _ => -1
        )
        case 'E' => 12
        case 'M' => 134
        case 'S' => 135
        case '_' => 164
        case _ => -1
    )
    case 31 => (
      match s[|s| - 2]
        case 'A' => 100
        case 'I' => 137
        case 'K' => 139
        case 'L' => 124
        case 'O' => 14
        case 'R' => (
          match s[|s| - 3]
          case 'E' => 99
          case 'O' => 46
          case _ => -1
        )
        case 'S' => 75
        case 'T' => 78
        case _ => -1
    )
    case 32 => (
      match s[|s| - 2]
        case 'A' => 113
        case 'C' => 84
        case 'E' => 155
        case 'K' => 140
        case 'L' => 179
        case 'M' => 48
        case 'N' => (
          match s[|s| - 1]
          case 'E' => 154
          case 'G' => 108
          case _ => -1
        )
        case 'O' => 114
        case 'P' => 149
        case 'S' => 86
        case 'T' => (
          match s[|s| - 3]
          case 'A' => 18
          case 'C' => 116
          case _ => -1
        )
        case 'U' => 38
        case _ => -1
    )
    case 33 => (
      match s[|s| - 2]
        case 'A' => 172
        case 'E' => (
          match s[|s| - 1]
          case 'R' => 41
          case 'T' => 20
          case _ => -1
        )
        case 'G' => 181
        case 'O' => 173
        case 'S' => 195
        case 'T' => 174
        case _ => -1
    )
    case 34 => (
      match s[|s| - 5]
        case 'A' => 43
        case 'C' => 65
        case 'K' => 69
        case 'L' => 52
        case 'N' => 11
        case 'O' => 95
        case 'P' => 167
        case 'S' => (
          match s[|s| - 1]
          case 'K' => 45
          case 'S' => 128
          case _ => -1
        )
        case 'T' => 166
        case 'V' => 177
        case _ => -1
    )
    case 35 => (
      match s[|s| - 10]
        case 'A' => 49
        case 'C' => 82
        case 'E' => (
          match s[|s| - 1]
          case 'D' => 71
          case 'H' => 136
          case 'S' => 35
          case _ => -1
        )
        case 'F' => 32
        case 'H' => 122
        case 'L' => 88
        case 'N' => 120
        case 'P' => 40
        case 'R' => 117
        case 'T' => 143
        case '_' => 97
        case _ => -1
    )
    case 36 => (
      match s[|s| - 10]
        case 'A' => (
          match s[|s| - 1]
          case 'H' => 147
          case 'R' => 119
          case _ => -1
        )
        case 'C' => 151
        case 'L' => 21
        case 'N' => 93
        case 'P' => 29
        case 'R' => 175
        case 'S' => 74
        case 'V' => 25
        case 'W' => (
          match s[|s| - 12]
          case 'E' => 64
          case 'S' => 10
          case _ => -1
        )
        case 'X' => 37
        case '_' => 80
        case _ => -1
    )
    case 37 => (
      match s[|s| - 11]
        case 'A' => 81
        case 'C' => (
          match s[|s| - 1]
          case 'M' => 126
          case 'S' => 68
          case _ => -1
        )
        case 'E' => 27
        case 'I' => 34
        case 'N' => (
          match s[|s| - 1]
          case 'S' => 127
          case 'Y' => 159
          case _ => -1
        )
        case 'P' => (
          match s[|s| - 1]
          case 'E' => 104
          case 'S' => 171
          case _ => -1
        )
        case 'S' => 50
        case 'U' => 15
        case 'W' => (
          match s[|s| - 13]
          case 'E' => 62
          case 'S' => 9
          case _ => -1
        )
        case _ => -1
    )
    case 38 => (
      match s[|s| - 12]
        case 'A' => 162
        case 'C' => 28
        case 'D' => 165
        case 'E' => (
          match s[|s| - 1]
          case 'E' => 178
          case 'Y' => 111
          case _ => -1
        )
        case 'L' => 157
        case 'M' => 148
        case 'O' => 183
        case 'T' => 77
        case 'Y' => 184
        case '_' => 110
        case 'o' => 186
        case _ => -1
    )
    case 39 => (
      match s[|s| - 12]
        case 'A' => 55
        case 'E' => (
          match s[|s| - 15]
          case 'E' => 61
          case 'S' => 7
          case _ => -1
        )
        case 'H' => 44
        case 'I' => 3
        case 'L' => 115
        case 'O' => (
          match s[|s| - 6]
          case 'C' => 5
          case 'R' => 60
          case _ => -1
        )
        case 'R' => 129
        case 'V' => 57
        case 'm' => 201
        case _ => -1
    )
    case 40 => (
      match s[|s| - 10]
        case 'A' => 118
        case 'C' => 85
        case 'D' => 185
        case 'E' => (
          match s[|s| - 2]
          case 'G' => 180
          case 'T' => 17
          case _ => -1
        )
        case 'F' => 161
        case 'N' => 101
        case 'O' => (
          match s[|s| - 1]
          case 'H' => 26
          case 'K' => 138
          case 'S' => 103
          case _ => -1
        )
        case 'R' => (
          match s[|s| - 2]
          case 'E' => 23
          case 'R' => 89
          case _ => -1
        )
        case 'Y' => 66
        case _ => -1
    )
    case 41 => (
      match s[|s| - 8]
        case 'D' => 163
        case 'E' => 39
        case 'L' => 2
        case 'N' => 112
        case 'O' => 131
        case 'Y' => 96
        case '_' => 176
        case _ => -1
    )
    case 42 => (
      match s[|s| - 5]
        case 'C' => 200
        case 'I' => 30
        case 'L' => 79
        case 'N' => 144
        case 'O' => 156
        case _ => -1
    )
    case 43 => (
      match s[|s| - 14]
        case 'A' => 105
        case 'C' => 67
        case 'D' => 31
        case 'N' => 145
        case 'S' => 142
        case '_' => 152
        case _ => -1
    )
    case 44 => (
      match s[|s| - 5]
        case 'D' => 254
        case 'E' => 92
        case 'H' => 189
        case 'M' => 47
        case 'R' => 1
        case 'S' => 106
        case 'V' => 87
        case _ => -1
    )
    case 45 => (
      match s[|s| - 6]
        case 'A' => 150
        case 'E' => 19
        case 'P' => 8
        case 'S' => 90
        case 'T' => 192
        case _ => -1
    )
    case 46 => (
      match s[|s| - 9]
        case 'A' => 63
        case 'B' => 133
        case 'E' => 56
        case 'L' => 0
        case 'N' => 54
        case 'O' => 123
        case 'P' => 158
        case 'T' => 24
        case 'V' => 196
        case '_' => 194
        case _ => -1
    )
    case 47 => (
      match s[|s| - 2]
        case 'G' => 132
        case 'I' => 197
        case 'V' => 255
        case _ => -1
    )
    case 48 => (
      match s[|s| - 1]
        case 'L' => 199
        case 'N' => 72
        case 'T' => 190
        case _ => -1
    )
    case 49 => (
      match s[|s| - 9]
        case 'A' => 58
        case 'G' => 22
        case 'L' => 59
        case 'W' => 191
        case '_' => 4
        case _ => -1
    )
    case 50 => (
      match s[|s| - 1]
        case 'E' => 36
        case 'T' => 193
        case _ => -1
    )
    case 52 => (
      match s[|s| - 1]
        case 'E' => 250
        case 'H' => 203
        case 'S' => 102
        case 'T' => 256
        case _ => -1
    )
    case 53 => (
      match s[|s| - 1]
        case 'E' => 33
        case 'S' => 187
        case _ => -1
    )
    case 54 => (
      match s[|s| - 1]
        case 'N' => 202
        case 'S' => 188
        case 'Y' => 252
        case _ => -1
    )
    case 55 => (
      match s[|s| - 1]
        case 'S' => 141
        case 'Y' => 253
        case 'g' => 224
        case 'h' => 209
        case 'l' => 213
        case 'p' => 214
        case _ => -1
    )
    case 56 => (
      match s[|s| - 1]
        case '2' => 227
        case 'E' => 248
        case _ => -1
    )
    case 57 => (
      match s[|s| - 2]
        case 'A' => 249
        case 'I' => 198
        case 'f' => 244
        case 'i' => 229
        case 'l' => 243
        case 'o' => 226
        case 's' => 245
        case 'w' => 231
        case _ => -1
    )
    case 58 => (
      match s[|s| - 2]
        case 'E' => 251
        case 'S' => 257
        case 'a' => 228
        case 'n' => 235
        case 's' => 218
        case 'u' => 233
        case _ => -1
    )
    case 59 => (
      match s[|s| - 2]
        case 'c' => 241
        case 'e' => 236
        case 'l' => 230
        case 'r' => 237
        case 't' => 223
        case _ => -1
    )
    case 60 => (
      match s[|s| - 2]
        case 'b' => 247
        case 'c' => 217
        case 'd' => 208
        case 'e' => 212
        case 'i' => 210
        case 'k' => 219
        case 'l' => 246
        case 'o' => 225
        case 's' => (
          match s[|s| - 1]
          case '2' => 222
          case 'e' => 207
          case _ => -1
        )
        case _ => -1
    )
    case 61 => (
      match s[|s| - 1]
        case 'a' => 238
        case 'k' => 232
        case 'n' => 216
        case 's' => 240
        case _ => -1
    )
    case 62 => (
      match s[|s| - 1]
        case 'l' => 215
        case 'o' => 234
        case _ => -1
    )
    case 64 => 206
    case 65 => (
      match s[|s| - 1]
        case 'S' => 204
        case 'l' => 221
        case _ => -1
    )
    case 66 => (
      match s[|s| - 2]
        case 'l' => 220
        case 'o' => 239
        case 'r' => 211
        case _ => -1
    )
    case 67 => 205
    case 74 => 242
    case _ => -1
  }

  /** Every name in the table is told apart by `Probe`, which recovers its position. */
  lemma {:induction false} ProbeAsStr(p: Permission)
    ensures Probe(AsStr(p)) == p
  {
    if p < 4 {
      ProbeAsStr0To3(p);
    } else if p < 8 {
      ProbeAsStr4To7(p);
    } else if p < 12 {
      ProbeAsStr8To11(p);
    } else if p < 16 {
      ProbeAsStr12To15(p);
    } else if p < 20 {
      ProbeAsStr16To19(p);
    } else if p < 24 {
      ProbeAsStr20To23(p);
    } else if p < 28 {
      ProbeAsStr24To27(p);
    } else if p < 32 {
      ProbeAsStr28To31(p);
    } else if p < 36 {
      ProbeAsStr32To35(p);
    } else if p < 40 {
      ProbeAsStr36To39(p);
    } else if p < 44 {
      ProbeAsStr40To43(p);
    } else if p < 48 {
      ProbeAsStr44To47(p);
    } else if p < 52 {
      ProbeAsStr48To51(p);
    } else if p < 56 {
      ProbeAsStr52To55(p);
    } else if p < 60 {
      ProbeAsStr56To59(p);
    } else if p < 64 {
      ProbeAsStr60To63(p);
    } else if p < 68 {
      ProbeAsStr64To67(p);
    } else if p < 72 {
      ProbeAsStr68To71(p);
    } else if p < 76 {
      ProbeAsStr72To75(p);
    } else if p < 80 {
      ProbeAsStr76To79(p);
    } else if p < 84 {
      ProbeAsStr80To83(p);
    } else if p < 88 {
      ProbeAsStr84To87(p);
    } else if p < 92 {
      ProbeAsStr88To91(p);
    } else if p < 96 {
      ProbeAsStr92To95(p);
    } else if p < 100 {
      ProbeAsStr96To99(p);
    } else if p < 104 {
      ProbeAsStr100To103(p);
    } else if p < 108 {
      ProbeAsStr104To107(p);
    } else if p < 112 {
      ProbeAsStr108To111(p);
    } else if p < 116 {
      ProbeAsStr112To115(p);
    } else if p < 120 {
      ProbeAsStr116To119(p);
    } else if p < 124 {
      ProbeAsStr120To123(p);
    } else if p < 128 {
      ProbeAsStr124To127(p);
    } else if p < 132 {
      ProbeAsStr128To131(p);
    } else if p < 136 {
      ProbeAsStr132To135(p);
    } else if p < 140 {
      ProbeAsStr136To139(p);
    } else if p < 144 {
      ProbeAsStr140To143(p);
    } else if p < 148 {
      ProbeAsStr144To147(p);
    } else if p < 152 {
      ProbeAsStr148To151(p);
    } else if p < 156 {
      ProbeAsStr152To155(p);
    } else if p < 160 {
      ProbeAsStr156To159(p);
    } else if p < 164 {
      ProbeAsStr160To163(p);
    } else if p < 168 {
      ProbeAsStr164To167(p);
    } else if p < 172 {
      ProbeAsStr168To171(p);
    } else if p < 176 {
      ProbeAsStr172To175(p);
    } else if p < 180 {
      ProbeAsStr176To179(p);
    } else if p < 184 {
      ProbeAsStr180To183(p);
    } else if p < 188 {
      ProbeAsStr184To187(p);
    } else if p < 192 {
      ProbeAsStr188To191(p);
    } else if p < 196 {
      ProbeAsStr192To195(p);
    } else if p < 200 {
      ProbeAsStr196To199(p);
    } else if p < 204 {
      ProbeAsStr200To203(p);
    } else if p < 208 {
      ProbeAsStr204To207(p);
    } else if p < 212 {
      ProbeAsStr208To211(p);
    } else if p < 216 {
      ProbeAsStr212To215(p);
    } else if p < 220 {
      ProbeAsStr216To219(p);
    } else if p < 224 {
      ProbeAsStr220To223(p);
    } else if p < 228 {
      ProbeAsStr224To227(p);
    } else if p < 232 {
      ProbeAsStr228To231(p);
    } else if p < 236 {
      ProbeAsStr232To235(p);
    } else if p < 240 {
      ProbeAsStr236To239(p);
    } else if p < 244 {
      ProbeAsStr240To243(p);
    } else if p < 248 {
      ProbeAsStr244To247(p);
    } else if p < 252 {
      ProbeAsStr248To251(p);
    } else if p < 256 {
      ProbeAsStr252To255(p);
    } else {
      ProbeAsStr256To257(p);
    }
  }

  lemma {:induction false} ProbeAsStr0To3(p: Permission)
    requires 0 <= p < 4
    ensures Probe(AsStr(p)) == p
  {
    if p == 0 {
    } else if p == 1 {
    } else if p == 2 {
    }
  }

  lemma {:induction false} ProbeAsStr4To7(p: Permission)
    requires 4 <= p < 8
    ensures Probe(AsStr(p)) == p
  {
    if p == 4 {
    } else if p == 5 {
    } else if p == 6 {
    }
  }

  lemma {:induction false} ProbeAsStr8To11(p: Permission)
    requires 8 <= p < 12
    ensures Probe(AsStr(p)) == p
  {
    if p == 8 {
    } else if p == 9 {
    } else if p == 10 {
    }
  }

  lemma {:induction false} ProbeAsStr12To15(p: Permission)
    requires 12 <= p < 16
    ensures Probe(AsStr(p)) == p
  {
    if p == 12 {
    } else if p == 13 {
    } else if p == 14 {
    }
  }

  lemma {:induction false} ProbeAsStr16To19(p: Permission)
    requires 16 <= p < 20
    ensures Probe(AsStr(p)) == p
  {
    if p == 16 {
    } else if p == 17 {
    } else if p == 18 {
    }
  }

  lemma {:induction false} ProbeAsStr20To23(p: Permission)
    requires 20 <= p < 24
    ensures Probe(AsStr(p)) == p
  {
    if p == 20 {
    } else if p == 21 {
    } else if p == 22 {
    }
  }

  lemma {:induction false} ProbeAsStr24To27(p: Permission)
    requires 24 <= p < 28
    ensures Probe(AsStr(p)) == p
  {
    if p == 24 {
    } else if p == 25 {
    } else if p == 26 {
    }
  }

  lemma {:induction false} ProbeAsStr28To31(p: Permission)
    requires 28 <= p < 32
    ensures Probe(AsStr(p)) == p
  {
    if p == 28 {
    } else if p == 29 {
    } else if p == 30 {
    }
  }

  lemma {:induction false} ProbeAsStr32To35(p: Permission)
    requires 32 <= p < 36
    ensures Probe(AsStr(p)) == p
  {
    if p == 32 {
    } else if p == 33 {
    } else if p == 34 {
    }
  }

  lemma {:induction false} ProbeAsStr36To39(p: Permission)
    requires 36 <= p < 40
    ensures Probe(AsStr(p)) == p
  {
    if p == 36 {
    } else if p == 37 {
    } else if p == 38 {
    }
  }

  lemma {:induction false} ProbeAsStr40To43(p: Permission)
    requires 40 <= p < 44
    ensures Probe(AsStr(p)) == p
  {
    if p == 40 {
    } else if p == 41 {
    } else if p == 42 {
    }
  }

  lemma {:induction false} ProbeAsStr44To47(p: Permission)
    requires 44 <= p < 48
    ensures Probe(AsStr(p)) == p
  {
    if p == 44 {
    } else if p == 45 {
    } else if p == 46 {
    }
  }

  lemma {:induction false} ProbeAsStr48To51(p: Permission)
    requires 48 <= p < 52
    ensures Probe(AsStr(p)) == p
  {
    if p == 48 {
    } else if p == 49 {
    } else if p == 50 {
    }
  }

  lemma {:induction false} ProbeAsStr52To55(p: Permission)
    requires 52 <= p < 56
    ensures Probe(AsStr(p)) == p
  {
    if p == 52 {
    } else if p == 53 {
    } else if p == 54 {
    }
  }

  lemma {:induction false} ProbeAsStr56To59(p: Permission)
    requires 56 <= p < 60
    ensures Probe(AsStr(p)) == p
  {
    if p == 56 {
    } else if p == 57 {
    } else if p == 58 {
    }
  }

  lemma {:induction false} ProbeAsStr60To63(p: Permission)
    requires 60 <= p < 64
    ensures Probe(AsStr(p)) == p
  {
    if p == 60 {
    } else if p == 61 {
    } else if p == 62 {
    }
  }

  lemma {:induction false} ProbeAsStr64To67(p: Permission)
    requires 64 <= p < 68
    ensures Probe(AsStr(p)) == p
  {
    if p == 64 {
    } else if p == 65 {
    } else if p == 66 {
    }
  }

  lemma {:induction false} ProbeAsStr68To71(p: Permission)
    requires 68 <= p < 72
    ensures Probe(AsStr(p)) == p
  {
    if p == 68 {
    } else if p == 69 {
    } else if p == 70 {
    }
  }

  lemma {:induction false} ProbeAsStr72To75(p: Permission)
    requires 72 <= p < 76
    ensures Probe(AsStr(p)) == p
  {
    if p == 72 {
    } else if p == 73 {
    } else if p == 74 {
    }
  }

  lemma {:induction false} ProbeAsStr76To79(p: Permission)
    requires 76 <= p < 80
    ensures Probe(AsStr(p)) == p
  {
    if p == 76 {
    } else if p == 77 {
    } else if p == 78 {
    }
  }

  lemma {:induction false} ProbeAsStr80To83(p: Permission)
    requires 80 <= p < 84
    ensures Probe(AsStr(p)) == p
  {
    if p == 80 {
    } else if p == 81 {
    } else if p == 82 {
    }
  }

  lemma {:induction false} ProbeAsStr84To87(p: Permission)
    requires 84 <= p < 88
    ensures Probe(AsStr(p)) == p
  {
    if p == 84 {
    } else if p == 85 {
    } else if p == 86 {
    }
  }

  lemma {:induction false} ProbeAsStr88To91(p: Permission)
    requires 88 <= p < 92
    ensures Probe(AsStr(p)) == p
  {
    if p == 88 {
    } else if p == 89 {
    } else if p == 90 {
    }
  }

  lemma {:induction false} ProbeAsStr92To95(p: Permission)
    requires 92 <= p < 96
    ensures Probe(AsStr(p)) == p
  {
    if p == 92 {
    } else if p == 93 {
    } else if p == 94 {
    }
  }

  lemma {:induction false} ProbeAsStr96To99(p: Permission)
    requires 96 <= p < 100
    ensures Probe(AsStr(p)) == p
  {
    if p == 96 {
    } else if p == 97 {
    } else if p == 98 {
    }
  }

  lemma {:induction false} ProbeAsStr100To103(p: Permission)
    requires 100 <= p < 104
    ensures Probe(AsStr(p)) == p
  {
    if p == 100 {
    } else if p == 101 {
    } else if p == 102 {
    }
  }

  lemma {:induction false} ProbeAsStr104To107(p: Permission)
    requires 104 <= p < 108
    ensures Probe(AsStr(p)) == p
  {
    if p == 104 {
    } else if p == 105 {
    } else if p == 106 {
    }
  }

  lemma {:induction false} ProbeAsStr108To111(p: Permission)
    requires 108 <= p < 112
    ensures Probe(AsStr(p)) == p
  {
    if p == 108 {
    } else if p == 109 {
    } else if p == 110 {
    }
  }

  lemma {:induction false} ProbeAsStr112To115(p: Permission)
    requires 112 <= p < 116
    ensures Probe(AsStr(p)) == p
  {
    if p == 112 {
    } else if p == 113 {
    } else if p == 114 {
    }
  }

  lemma {:induction false} ProbeAsStr116To119(p: Permission)
    requires 116 <= p < 120
    ensures Probe(AsStr(p)) == p
  {
    if p == 116 {
    } else if p == 117 {
    } else if p == 118 {
    }
  }

  lemma {:induction false} ProbeAsStr120To123(p: Permission)
    requires 120 <= p < 124
    ensures Probe(AsStr(p)) == p
  {
    if p == 120 {
    } else if p == 121 {
    } else if p == 122 {
    }
  }

  lemma {:induction false} ProbeAsStr124To127(p: Permission)
    requires 124 <= p < 128
    ensures Probe(AsStr(p)) == p
  {
    if p == 124 {
    } else if p == 125 {
    } else if p == 126 {
    }
  }

  lemma {:induction false} ProbeAsStr128To131(p: Permission)
    requires 128 <= p < 132
    ensures Probe(AsStr(p)) == p
  {
    if p == 128 {
    } else if p == 129 {
    } else if p == 130 {
    }
  }

  lemma {:induction false} ProbeAsStr132To135(p: Permission)
    requires 132 <= p < 136
    ensures Probe(AsStr(p)) == p
  {
    if p == 132 {
    } else if p == 133 {
    } else if p == 134 {
    }
  }

  lemma {:induction false} ProbeAsStr136To139(p: Permission)
    requires 136 <= p < 140
    ensures Probe(AsStr(p)) == p
  {
    if p == 136 {
    } else if p == 137 {
    } else if p == 138 {
    }
  }

  lemma {:induction false} ProbeAsStr140To143(p: Permission)
    requires 140 <= p < 144
    ensures Probe(AsStr(p)) == p
  {
    if p == 140 {
    } else if p == 141 {
    } else if p == 142 {
    }
  }

  lemma {:induction false} ProbeAsStr144To147(p: Permission)
    requires 144 <= p < 148
    ensures Probe(AsStr(p)) == p
  {
    if p == 144 {
    } else if p == 145 {
    } else if p == 146 {
    }
  }

  lemma {:induction false} ProbeAsStr148To151(p: Permission)
    requires 148 <= p < 152
    ensures Probe(AsStr(p)) == p
  {
    if p == 148 {
    } else if p == 149 {
    } else if p == 150 {
    }
  }

  lemma {:induction false} ProbeAsStr152To155(p: Permission)
    requires 152 <= p < 156
    ensures Probe(AsStr(p)) == p
  {
    if p == 152 {
    } else if p == 153 {
    } else if p == 154 {
    }
  }

  lemma {:induction false} ProbeAsStr156To159(p: Permission)
    requires 156 <= p < 160
    ensures Probe(AsStr(p)) == p
  {
    if p == 156 {
    } else if p == 157 {
    } else if p == 158 {
    }
  }

  lemma {:induction false} ProbeAsStr160To163(p: Permission)
    requires 160 <= p < 164
    ensures Probe(AsStr(p)) == p
  {
    if p == 160 {
    } else if p == 161 {
    } else if p == 162 {
    }
  }

  lemma {:induction false} ProbeAsStr164To167(p: Permission)
    requires 164 <= p < 168
    ensures Probe(AsStr(p)) == p
  {
    if p == 164 {
    } else if p == 165 {
    } else if p == 166 {
    }
  }

  lemma {:induction false} ProbeAsStr168To171(p: Permission)
    requires 168 <= p < 172
    ensures Probe(AsStr(p)) == p
  {
    if p == 168 {
    } else if p == 169 {
    } else if p == 170 {
    }
  }

  lemma {:induction false} ProbeAsStr172To175(p: Permission)
    requires 172 <= p < 176
    ensures Probe(AsStr(p)) == p
  {
    if p == 172 {
    } else if p == 173 {
    } else if p == 174 {
    }
  }

  lemma {:induction false} ProbeAsStr176To179(p: Permission)
    requires 176 <= p < 180
    ensures Probe(AsStr(p)) == p
  {
    if p == 176 {
    } else if p == 177 {
    } else if p == 178 {
    }
  }

  lemma {:induction false} ProbeAsStr180To183(p: Permission)
    requires 180 <= p < 184
    ensures Probe(AsStr(p)) == p
  {
    if p == 180 {
    } else if p == 181 {
    } else if p == 182 {
    }
  }

  lemma {:induction false} ProbeAsStr184To187(p: Permission)
    requires 184 <= p < 188
    ensures Probe(AsStr(p)) == p
  {
    if p == 184 {
    } else if p == 185 {
    } else if p == 186 {
    }
  }

  lemma {:induction false} ProbeAsStr188To191(p: Permission)
    requires 188 <= p < 192
    ensures Probe(AsStr(p)) == p
  {
    if p == 188 {
    } else if p == 189 {
    } else if p == 190 {
    }
  }

  lemma {:induction false} ProbeAsStr192To195(p: Permission)
    requires 192 <= p < 196
    ensures Probe(AsStr(p)) == p
  {
    if p == 192 {
    } else if p == 193 {
    } else if p == 194 {
    }
  }

  lemma {:induction false} ProbeAsStr196To199(p: Permission)
    requires 196 <= p < 200
    ensures Probe(AsStr(p)) == p
  {
    if p == 196 {
    } else if p == 197 {
    } else if p == 198 {
    }
  }

  lemma {:induction false} ProbeAsStr200To203(p: Permission)
    requires 200 <= p < 204
    ensures Probe(AsStr(p)) == p
  {
    if p == 200 {
    } else if p == 201 {
    } else if p == 202 {
    }
  }

  lemma {:induction false} ProbeAsStr204To207(p: Permission)
    requires 204 <= p < 208
    ensures Probe(AsStr(p)) == p
  {
    if p == 204 {
    } else if p == 205 {
    } else if p == 206 {
    }
  }

  lemma {:induction false} ProbeAsStr208To211(p: Permission)
    requires 208 <= p < 212
    ensures Probe(AsStr(p)) == p
  {
    if p == 208 {
    } else if p == 209 {
    } else if p == 210 {
    }
  }

  lemma {:induction false} ProbeAsStr212To215(p: Permission)
    requires 212 <= p < 216
    ensures Probe(AsStr(p)) == p
  {
    if p == 212 {
    } else if p == 213 {
    } else if p == 214 {
    }
  }

  lemma {:induction false} ProbeAsStr216To219(p: Permission)
    requires 216 <= p < 220
    ensures Probe(AsStr(p)) == p
  {
    if p == 216 {
    } else if p == 217 {
    } else if p == 218 {
    }
  }

  lemma {:induction false} ProbeAsStr220To223(p: Permission)
    requires 220 <= p < 224
    ensures Probe(AsStr(p)) == p
  {
    if p == 220 {
    } else if p == 221 {
    } else if p == 222 {
    }
  }

  lemma {:induction false} ProbeAsStr224To227(p: Permission)
    requires 224 <= p < 228
    ensures Probe(AsStr(p)) == p
  {
    if p == 224 {
    } else if p == 225 {
    } else if p == 226 {
    }
  }

  lemma {:induction false} ProbeAsStr228To231(p: Permission)
    requires 228 <= p < 232
    ensures Probe(AsStr(p)) == p
  {
    if p == 228 {
    } else if p == 229 {
    } else if p == 230 {
    }
  }

  lemma {:induction false} ProbeAsStr232To235(p: Permission)
    requires 232 <= p < 236
    ensures Probe(AsStr(p)) == p
  {
    if p == 232 {
    } else if p == 233 {
    } else if p == 234 {
    }
  }

  lemma {:induction false} ProbeAsStr236To239(p: Permission)
    requires 236 <= p < 240
    ensures Probe(AsStr(p)) == p
  {
    if p == 236 {
    } else if p == 237 {
    } else if p == 238 {
    }
  }

  lemma {:induction false} ProbeAsStr240To243(p: Permission)
    requires 240 <= p < 244
    ensures Probe(AsStr(p)) == p
  {
    if p == 240 {
    } else if p == 241 {
    } else if p == 242 {
    }
  }

  lemma {:induction false} ProbeAsStr244To247(p: Permission)
    requires 244 <= p < 248
    ensures Probe(AsStr(p)) == p
  {
    if p == 244 {
    } else if p == 245 {
    } else if p == 246 {
    }
  }

  lemma {:induction false} ProbeAsStr248To251(p: Permission)
    requires 248 <= p < 252
    ensures Probe(AsStr(p)) == p
  {
    if p == 248 {
    } else if p == 249 {
    } else if p == 250 {
    }
  }

  lemma {:induction false} ProbeAsStr252To255(p: Permission)
    requires 252 <= p < 256
    ensures Probe(AsStr(p)) == p
  {
    if p == 252 {
    } else if p == 253 {
    } else if p == 254 {
    }
  }

  lemma {:induction false} ProbeAsStr256To257(p: Permission)
    requires 256 <= p < 258
    ensures Probe(AsStr(p)) == p
  {
    if p == 256 {
    }
  }

  /** Different permissions have different names. */
  lemma {:induction false} AsStrInjective(p: Permission, q: Permission)
    ensures AsStr(p) == AsStr(q) ==> p == q
  {
    ProbeAsStr(p);
    ProbeAsStr(q);
  }

  /** Looking up the name of a permission gives back that permission. */
  lemma {:induction false} TryFromAsStr(p: Permission)
    ensures TryFrom(AsStr(p)) == Ok(p)
  {
    var r := TryFrom(AsStr(p));
    assert r.Ok?;
    AsStrInjective(p, r.value);
  }

  /** A successful lookup names the permission it returns, so printing it gives back the input. */
  lemma {:induction false} AsStrTryFrom(s: string)
    ensures TryFrom(s).Ok? ==> AsStr(TryFrom(s).value) == s
    ensures TryFrom(s).Ok? <==> exists p: Permission :: AsStr(p) == s
  {
    if TryFrom(s).Ok? {
      var p := TryFrom(s).value;
      assert AsStr(p) == s;
    }
  }

  /** The lookups the tests make for two names in the table. */
  lemma FromStrExamples()
    ensures FromStr("android.permission.INTERNET") == Ok(AndroidPermissionInternet)
    ensures FromStr("android.permission.WRITE_EXTERNAL_STORAGE") == Ok(AndroidPermissionWriteExternalStorage)
    ensures AsStr(AndroidPermissionWriteExternalStorage) == "android.permission.WRITE_EXTERNAL_STORAGE"
  {
    TryFromAsStr(AndroidPermissionInternet);
    TryFromAsStr(AndroidPermissionWriteExternalStorage);
  }

  /** Names outside the table are errors, and the comparison is case-sensitive. */
  lemma FromStrUnknownExamples()
    ensures FromStr("Razican") == Err(UnknownPermission("Razican"))
    ensures FromStr("android.permission.internet").Err?
  {
    assert Probe("Razican") == -1;
    assert Probe("android.permission.internet") == -1;
    forall q: Permission ensures AsStr(q) != "Razican" && AsStr(q) != "android.permission.internet" {
      ProbeAsStr(q);
    }
  }
}
